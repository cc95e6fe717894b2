/**
 * Firing a deferred operation preserves `Consistent`. A firing changes the
 * status of one pending operation whose dependencies have all settled, may
 * fill in or amend the item info of its node, may release the node's
 * registries, and may append one service call. The generic lemmas cover the
 * parts of the invariant every firing keeps; each firing then proves the
 * parts it touches.
 */
module ReportingFire {
  import opened ReportingTypes
  import opened ReportingInvariants
  import opened ReportingSteps

  /** `t'` fires the runnable operation `k` of `t` and changes no other operation. */
  ghost predicate Fires(t: Tree, t': Tree, k: nat) {
    && 0 < k < |t.ops| && Runnable(t.ops, k)
    && |t'.ops| == |t.ops|
    && t'.ops[k].kind == t.ops[k].kind && t'.ops[k].deps == t.ops[k].deps && t'.ops[k].status != Pending
    && (forall j :: 0 <= j < |t.ops| && j != k ==> t'.ops[j] == t.ops[j])
  }

  /** Item info only appears on nodes whose start had not fired, and keeps its id and start time. */
  ghost predicate InfoKept(t: Tree, t': Tree, m: nat)
    requires m < |t.reporters| && m < |t'.reporters|
  {
    && (t.reporters[m].testInfo.Some? ==>
          && t'.reporters[m].testInfo.Some?
          && t'.reporters[m].testInfo.value.id == t.reporters[m].testInfo.value.id
          && t'.reporters[m].testInfo.value.startTime == t.reporters[m].testInfo.value.startTime)
    && (t.reporters[m].testInfo.None? && t'.reporters[m].testInfo.Some? ==> !StartResolved(t, m))
  }

  /**
   * `t'` keeps the launch, every record's links and item info, and every
   * earlier call; a registry is kept or released, a side-channel registry only
   * once the finish has completed.
   */
  ghost predicate RecordsKept(t: Tree, t': Tree) {
    && t'.launch == t.launch
    && |t'.reporters| == |t.reporters|
    && |t.calls| <= |t'.calls|
    && (forall i :: 0 <= i < |t.calls| ==> t'.calls[i] == t.calls[i])
    && forall m :: 0 <= m < |t.reporters| ==>
         && t'.reporters[m].parent == t.reporters[m].parent
         && t'.reporters[m].startTask == t.reporters[m].startTask
         && t'.reporters[m].finishTask == t.reporters[m].finishTask
         && InfoKept(t, t', m)
         && (t'.reporters[m].childTestReporters == t.reporters[m].childTestReporters || t'.reporters[m].childTestReporters.None?)
         && (t'.reporters[m].additionalTasks == t.reporters[m].additionalTasks ||
             (t'.reporters[m].additionalTasks.None? && !FinishOpen(t'.ops, t'.reporters[m])))
  }

  /** The item info of every node exists exactly when its start succeeded. */
  ghost predicate InfoMatchesStart(t: Tree) {
    forall m :: 0 <= m < |t.reporters| ==> (t.reporters[m].testInfo.Some? <==> StartSucceeded(t, m))
  }

  /** A firing keeps operations ordered, and a settled status never changes again. */
  lemma FireOrdered(t: Tree, t': Tree, k: nat)
    requires ResolutionOrdered(t) && Fires(t, t', k)
    ensures ResolutionOrdered(t') && OpsKept(t, t')
    ensures forall j :: 0 <= j < |t.ops| && t.ops[j].status != Pending ==> t'.ops[j].status == t.ops[j].status
  {
    forall j, i | 0 <= j < |t'.ops| && 0 <= i < |t'.ops[j].deps| && t'.ops[j].status != Pending && t'.ops[j].deps[i] < |t'.ops|
      ensures t'.ops[t'.ops[j].deps[i]].status != Pending
    {
      var d := t.ops[j].deps[i];
      assert d < |t.ops|;
      if d != k && j != k {
        assert t.ops[d].status != Pending;
      }
    }
  }

  /** A started, finished or successfully finished node stays so after a firing. */
  lemma FireMonotone(t: Tree, t': Tree, k: nat)
    requires ResolutionOrdered(t) && Fires(t, t', k) && RecordsKept(t, t')
    ensures forall m :: 0 <= m < |t.reporters| && StartResolved(t, m) ==> StartResolved(t', m)
    ensures forall m :: 0 <= m < |t.reporters| && StartSucceeded(t, m) ==> StartSucceeded(t', m)
    ensures forall m :: 0 <= m < |t.reporters| && FinishResolved(t, m) ==> FinishResolved(t', m)
    ensures forall m :: 0 <= m < |t.reporters| && FinishSucceeded(t.ops, t.reporters, m) ==> FinishSucceeded(t'.ops, t'.reporters, m)
  {
    FireOrdered(t, t', k);
  }

  /** A firing that keeps the records keeps the tables well formed. */
  lemma FireShape(t: Tree, t': Tree, k: nat)
    requires Shape(t) && ResolutionOrdered(t) && Fires(t, t', k) && RecordsKept(t, t') && InfoMatchesStart(t')
    ensures Shape(t')
  {
    FireOrdered(t, t', k);
    forall j | 0 < j < |t.ops| ensures OpShape(t', j) {
      FireKeepsOp(t, t', k, j);
    }
    forall m | 0 <= m < |t'.reporters| ensures ReporterShape(t', m) {
      assert ReporterShape(t, m);
    }
  }

  lemma FireKeepsOp(t: Tree, t': Tree, k: nat, j: nat)
    requires Shape(t) && ResolutionOrdered(t) && Fires(t, t', k) && RecordsKept(t, t')
    requires 0 < j < |t.ops|
    ensures OpShape(t', j)
  {
    FireOrdered(t, t', k);
    assert OpShape(t, j);
    var m := t.ops[j].kind.node;
    assert ReporterShape(t, m);
    assert FinishOpen(t'.ops, t'.reporters[m]) ==> FinishOpen(t.ops, t.reporters[m]);
    OpShapeKept(t, t', j);
  }

  /** Every call already in the journal stays justified after a firing. */
  lemma FireJustifiesOld(t: Tree, t': Tree, k: nat)
    requires ResolutionOrdered(t) && CallsJustified(t) && Fires(t, t', k) && RecordsKept(t, t')
    ensures forall i :: 0 <= i < |t.calls| ==> CallJustified(t', t'.calls[i])
  {
    FireMonotone(t, t', k);
    forall i | 0 <= i < |t.calls| ensures CallJustified(t', t'.calls[i]) {
      var c := t.calls[i];
      assert CallJustified(t, c);
      assert InfoKept(t, t', c.node);
      var r := t.reporters[c.node];
      if c.StartItemCall? && r.parent.Some? {
        assert InfoKept(t, t', r.parent.value);
      }
      if c.FinishItemCall? {
        forall m | 0 <= m < |c.checkedChildren|
          ensures FinishSucceeded(t'.ops, t'.reporters, c.checkedChildren[m])
        {
        }
      }
      if c.UpdateItemCall? || c.AddLogCall? {
        assert c.op < |t.ops| && t'.ops[c.op].kind == t.ops[c.op].kind;
      }
    }
  }

  /** The journal starts a node only once that start has fired. */
  lemma CalledMeansResolved(t: Tree, n: nat)
    requires CallsJustified(t) && n < |t.reporters|
    ensures StartCalledBefore(t, n, |t.calls|) ==> StartResolved(t, n)
    ensures FinishCalledBefore(t, n, |t.calls|) ==> FinishResolved(t, n)
  {
    if StartCalledBefore(t, n, |t.calls|) {
      var i :| 0 <= i < |t.calls| && t.calls[i].StartItemCall? && t.calls[i].node == n;
      assert CallJustified(t, t.calls[i]);
    }
    if FinishCalledBefore(t, n, |t.calls|) {
      var i :| 0 <= i < |t.calls| && t.calls[i].FinishItemCall? && t.calls[i].node == n;
      assert CallJustified(t, t.calls[i]);
    }
  }

  /** The journal is a prefix: whether something was called before position `j` is unchanged for old positions. */
  lemma CalledBeforeKept(t: Tree, t': Tree)
    requires |t.calls| <= |t'.calls| && forall i :: 0 <= i < |t.calls| ==> t'.calls[i] == t.calls[i]
    ensures forall n, j :: 0 <= j <= |t.calls| ==> StartCalledBefore(t', n, j) == StartCalledBefore(t, n, j)
    ensures forall n, j :: 0 <= j <= |t.calls| ==> FinishCalledBefore(t', n, j) == FinishCalledBefore(t, n, j)
  {
  }

  /** The journal gains at most one call, and that call fits the order of the journal. */
  ghost predicate CallFits(t: Tree, c: Call) {
    && (c.StartItemCall? ==>
          && !StartCalledBefore(t, c.node, |t.calls|)
          && (c.node < |t.reporters| && t.reporters[c.node].parent.Some? ==>
                StartCalledBefore(t, t.reporters[c.node].parent.value, |t.calls|)))
    && (!c.StartItemCall? ==> StartCalledBefore(t, c.node, |t.calls|))
    && (c.FinishItemCall? ==>
          && !FinishCalledBefore(t, c.node, |t.calls|)
          && forall m :: 0 <= m < |c.checkedChildren| ==> FinishCalledBefore(t, c.checkedChildren[m], |t.calls|))
    && (c.AddLogCall? ==>
          forall i :: 0 <= i < |t.calls| && t.calls[i].AddLogCall? && t.calls[i].node == c.node ==> t.calls[i].op < c.op)
  }

  /** Appending a fitting call, with the records' links kept, keeps the journal ordered. */
  lemma OrderAppend(t: Tree, t': Tree, c: Call)
    requires CallOrder(t) && t'.calls == t.calls + [c] && CallFits(t, c)
    requires |t'.reporters| == |t.reporters|
    requires forall m :: 0 <= m < |t.reporters| ==> t'.reporters[m].parent == t.reporters[m].parent
    ensures CallOrder(t')
  {
    CalledBeforeKept(t, t');
    OnceAppend(t, t', c);
    ParentsAppend(t, t', c);
    StartsAppend(t, t', c);
    ChildrenAppend(t, t', c);
  }

  lemma OnceAppend(t: Tree, t': Tree, c: Call)
    requires CalledOnce(t) && LogsInOrder(t) && t'.calls == t.calls + [c] && CallFits(t, c)
    ensures CalledOnce(t') && LogsInOrder(t')
  {
    assert t'.calls[|t.calls|] == c;
  }

  lemma ParentsAppend(t: Tree, t': Tree, c: Call)
    requires ParentsCalledFirst(t) && t'.calls == t.calls + [c] && CallFits(t, c)
    requires |t'.reporters| == |t.reporters|
    requires forall m :: 0 <= m < |t.reporters| ==> t'.reporters[m].parent == t.reporters[m].parent
    ensures ParentsCalledFirst(t')
  {
    CalledBeforeKept(t, t');
    assert t'.calls[|t.calls|] == c;
  }

  lemma StartsAppend(t: Tree, t': Tree, c: Call)
    requires StartsCalledFirst(t) && t'.calls == t.calls + [c] && CallFits(t, c)
    ensures StartsCalledFirst(t')
  {
    CalledBeforeKept(t, t');
    assert t'.calls[|t.calls|] == c;
  }

  lemma ChildrenAppend(t: Tree, t': Tree, c: Call)
    requires ChildrenCalledFirst(t) && t'.calls == t.calls + [c] && CallFits(t, c)
    ensures ChildrenCalledFirst(t')
  {
    CalledBeforeKept(t, t');
    assert t'.calls[|t.calls|] == c;
  }

  /** With the journal and the records' links unchanged, the journal stays ordered. */
  lemma OrderSame(t: Tree, t': Tree)
    requires CallOrder(t) && t'.calls == t.calls
    requires |t'.reporters| == |t.reporters|
    requires forall m :: 0 <= m < |t.reporters| ==> t'.reporters[m].parent == t.reporters[m].parent
    ensures CallOrder(t')
  {
    CalledBeforeKept(t, t');
  }

  /** With every item info's presence and start time kept, start times stay clamped. */
  lemma ClampedKept(t: Tree, t': Tree)
    requires Clamped(t) && t'.launch == t.launch && |t'.reporters| == |t.reporters|
    requires forall m :: 0 <= m < |t.reporters| ==>
      && t'.reporters[m].parent == t.reporters[m].parent
      && t'.reporters[m].testInfo.Some? == t.reporters[m].testInfo.Some?
      && (t.reporters[m].testInfo.Some? ==> t'.reporters[m].testInfo.value.startTime == t.reporters[m].testInfo.value.startTime)
    ensures Clamped(t')
  {
    forall m | 0 <= m < |t'.reporters| && t'.reporters[m].testInfo.Some? ensures StartAnchored(t', m) {
      assert StartAnchored(t, m);
    }
  }

  /** A started node's parent started first. */
  lemma ParentStartedFirst(t: Tree, m: nat)
    requires Consistent(t) && m < |t.reporters|
    ensures StartSucceeded(t, m) && t.reporters[m].parent.Some? ==> StartSucceeded(t, t.reporters[m].parent.value)
  {
    var p := t.reporters[m].parent;
    if t.reporters[m].startTask.Some? && p.Some? {
      var s := t.reporters[m].startTask.value;
      assert ReporterShape(t, m);
      assert OpShape(t, s);
      assert t.ops[s].deps[1] == t.reporters[p.value].startTask.value;
    }
  }

  /** The start of node `n` is due to fire. */
  ghost predicate StartFirable(t: Tree, n: nat) {
    && Consistent(t) && n < |t.reporters| && t.reporters[n].startTask.Some?
    && Runnable(t.ops, t.reporters[n].startTask.value)
  }

  /** What a firing start of `n` finds: its operation and, when no dependency failed, the launch's and the parent's info. */
  lemma StartInputs(t: Tree, n: nat)
    requires StartFirable(t, n)
    ensures var k := t.reporters[n].startTask.value;
      && 0 < k < |t.ops| && t.ops[k].kind.ItemStart? && t.ops[k].kind.node == n
      && t.reporters[n].testInfo.None?
      && (forall i :: 0 <= i < |t.ops[k].deps| ==> t.ops[k].deps[i] < k)
    ensures var k := t.reporters[n].startTask.value;
      !DependencyFailed(t.ops, t.ops[k].deps) ==>
        && (forall i :: 0 <= i < |t.ops[k].deps| ==> t.ops[t.ops[k].deps[i]].status == Succeeded)
        && StartItemFor(t.launch, t.reporters, n, t.ops[k].kind.startRequest).Some?
        && (t.reporters[n].parent.Some? ==> StartSucceeded(t, t.reporters[n].parent.value))
  {
    var k := t.reporters[n].startTask.value;
    assert ReporterShape(t, n);
    assert OpShape(t, k);
    var p := t.reporters[n].parent;
    if p.Some? {
      assert ReporterShape(t, p.value);
      assert t.ops[k].deps[1] == t.reporters[p.value].startTask.value;
    }
    assert t.ops[k].deps[0] == LaunchStartTask;
  }

  /**
   * The start of `n` fires: it fails without a call when the launch's or the
   * parent's start failed; otherwise it calls the service and, with the
   * service's reply `Some(id)`, records the item info.
   */
  ghost function StartFired(t: Tree, n: nat, reply: Option<Id>): Tree
    requires StartFirable(t, n)
  {
    StartInputs(t, n);
    var k := t.reporters[n].startTask.value;
    var op := t.ops[k];
    if DependencyFailed(t.ops, op.deps) then
      t.(ops := t.ops[k := op.(status := Failed(ParentFailedToStart))])
    else
      var c := StartItemFor(t.launch, t.reporters, n, op.kind.startRequest).value;
      if reply.Some? then
        t.(ops := t.ops[k := op.(status := Succeeded)],
           reporters := t.reporters[n := t.reporters[n].(testInfo := Some(TestItem(reply.value, c.startTime, None, None)))],
           calls := t.calls + [c])
      else
        t.(ops := t.ops[k := op.(status := Failed(TransportRejected))], calls := t.calls + [c])
  }

  /** Firing a start keeps the tree consistent. */
  lemma StartFiredPreserves(t: Tree, n: nat, reply: Option<Id>)
    requires StartFirable(t, n)
    ensures Consistent(StartFired(t, n, reply))
  {
    var t' := StartFired(t, n, reply);
    var k := t.reporters[n].startTask.value;
    StartInputs(t, n);
    assert Fires(t, t', k);
    StartFiredLocal(t, n, reply);
    FireOrdered(t, t', k);
    FireShape(t, t', k);
    StartFiredStatuses(t, n, reply);
    StartFiredClamped(t, n, reply);
    StartFiredCalls(t, n, reply);
  }

  /** Only node `n` is affected by its start firing. */
  lemma StartFiredLocal(t: Tree, n: nat, reply: Option<Id>)
    requires StartFirable(t, n)
    ensures var t' := StartFired(t, n, reply);
      && Fires(t, t', t.reporters[n].startTask.value) && RecordsKept(t, t') && InfoMatchesStart(t')
      && (forall m :: 0 <= m < |t.reporters| && m != n ==> StartSucceeded(t', m) == StartSucceeded(t, m))
      && (forall m :: 0 <= m < |t.reporters| ==> FinishSucceeded(t'.ops, t'.reporters, m) == FinishSucceeded(t.ops, t.reporters, m))
  {
    var t' := StartFired(t, n, reply);
    StartInputs(t, n);
    StartFiredNodes(t, n, reply);
    assert RecordsKept(t, t');
  }

  lemma StartFiredNodes(t: Tree, n: nat, reply: Option<Id>)
    requires StartFirable(t, n)
    ensures var t' := StartFired(t, n, reply);
      && |t'.reporters| == |t.reporters|
      && (forall m :: 0 <= m < |t.reporters| && m != n ==> StartSucceeded(t', m) == StartSucceeded(t, m))
      && (forall m :: 0 <= m < |t.reporters| ==> FinishSucceeded(t'.ops, t'.reporters, m) == FinishSucceeded(t.ops, t.reporters, m))
      && (forall m :: 0 <= m < |t.reporters| ==> InfoKept(t, t', m))
      && InfoMatchesStart(t')
  {
    var t' := StartFired(t, n, reply);
    StartInputs(t, n);
    forall m | 0 <= m < |t.reporters|
      ensures m != n ==> StartSucceeded(t', m) == StartSucceeded(t, m)
      ensures FinishSucceeded(t'.ops, t'.reporters, m) == FinishSucceeded(t.ops, t.reporters, m)
      ensures InfoKept(t, t', m)
      ensures t'.reporters[m].testInfo.Some? <==> StartSucceeded(t', m)
    {
      assert ReporterShape(t, m);
    }
  }

  lemma StartFiredStatuses(t: Tree, n: nat, reply: Option<Id>)
    requires StartFirable(t, n)
    ensures SuccessPropagates(StartFired(t, n, reply))
  {
    var t' := StartFired(t, n, reply);
    var k := t.reporters[n].startTask.value;
    StartInputs(t, n);
    StartFiredLocal(t, n, reply);
    FireMonotone(t, t', k);
    forall j, i | 0 <= j < |t'.ops| && t'.ops[j].kind.ItemStart? && t'.ops[j].status == Succeeded &&
          0 <= i < |t'.ops[j].deps| && t'.ops[j].deps[i] < |t'.ops|
      ensures t'.ops[t'.ops[j].deps[i]].status == Succeeded
    {
      if j != k {
        assert t.ops[t.ops[j].deps[i]].status == Succeeded;
      }
    }
    forall j | 0 <= j < |t'.ops| && t'.ops[j].kind.ItemFinish? && t'.ops[j].status == Succeeded
      ensures StartSucceeded(t', t'.ops[j].kind.node)
    {
      assert j != k;
    }
  }

  lemma StartFiredClamped(t: Tree, n: nat, reply: Option<Id>)
    requires StartFirable(t, n)
    ensures Clamped(StartFired(t, n, reply))
  {
    var t' := StartFired(t, n, reply);
    StartInputs(t, n);
    StartFiredLocal(t, n, reply);
    assert ReporterShape(t, n);
    forall m | 0 <= m < |t'.reporters| && t'.reporters[m].testInfo.Some? ensures StartAnchored(t', m) {
      if m != n {
        assert StartAnchored(t, m);
        ParentStartedFirst(t, m);
        assert ReporterShape(t, m);
      }
    }
  }

  lemma StartFiredCalls(t: Tree, n: nat, reply: Option<Id>)
    requires StartFirable(t, n)
    ensures var t' := StartFired(t, n, reply); CallsJustified(t') && CallsRecorded(t') && CallOrder(t')
  {
    StartCallsJustified(t, n, reply);
    StartCallsRecorded(t, n, reply);
    StartCallOrdered(t, n, reply);
  }

  lemma StartCallsJustified(t: Tree, n: nat, reply: Option<Id>)
    requires StartFirable(t, n)
    ensures CallsJustified(StartFired(t, n, reply))
  {
    var t' := StartFired(t, n, reply);
    StartInputs(t, n);
    StartFiredLocal(t, n, reply);
    FireJustifiesOld(t, t', t.reporters[n].startTask.value);
    assert ReporterShape(t, n);
  }

  lemma StartCallsRecorded(t: Tree, n: nat, reply: Option<Id>)
    requires StartFirable(t, n)
    ensures CallsRecorded(StartFired(t, n, reply))
  {
    var t' := StartFired(t, n, reply);
    StartInputs(t, n);
    StartFiredLocal(t, n, reply);
    CalledBeforeKept(t, t');
    assert ReporterShape(t, n);
    if t'.calls != t.calls {
      assert t'.calls[|t.calls|].StartItemCall? && t'.calls[|t.calls|].node == n;
      assert StartCalledBefore(t', n, |t'.calls|);
    }
  }

  lemma StartCallOrdered(t: Tree, n: nat, reply: Option<Id>)
    requires StartFirable(t, n)
    ensures CallOrder(StartFired(t, n, reply))
  {
    var t' := StartFired(t, n, reply);
    StartInputs(t, n);
    StartFiredLocal(t, n, reply);
    CalledMeansResolved(t, n);
    assert ReporterShape(t, n);
    if t'.calls == t.calls {
      OrderSame(t, t');
    } else {
      var c := t'.calls[|t.calls|];
      assert t'.calls == t.calls + [c];
      OrderAppend(t, t', c);
    }
  }

  /**
   * The finish of node `n` is due to fire: its dependencies have settled and,
   * when the item info exists so that the finish gets as far as waiting on
   * its children, that wait does not block.
   */
  ghost predicate FinishFirable(t: Tree, n: nat) {
    && Consistent(t) && n < |t.reporters| && t.reporters[n].finishTask.Some?
    && Runnable(t.ops, t.reporters[n].finishTask.value)
    && (t.reporters[n].testInfo.Some? ==> ChildWaitReturns(t.ops, t.reporters, Registry(t.reporters[n].childTestReporters)))
  }

  /** What a firing finish of `n` finds: its operation, and item info exactly when the start succeeded. */
  lemma FinishInputs(t: Tree, n: nat)
    requires FinishFirable(t, n)
    ensures var k := t.reporters[n].finishTask.value;
      && 0 < k < |t.ops| && t.ops[k].kind.ItemFinish? && t.ops[k].kind.node == n
      && t.reporters[n].startTask.Some? && t.reporters[n].startTask.value != k
      && (t.reporters[n].testInfo.Some? <==> StartSucceeded(t, n))
  {
    assert ReporterShape(t, n);
  }

  /**
   * The finish of `n` fires. Without item info (the start failed) it fails at
   * once and keeps the registries. Otherwise it records the requested end
   * time and status and releases the registries; it fails if a registered
   * child's finish is missing or did not succeed, and else calls the service
   * with the end time raised to the item's start time, succeeding exactly
   * when the service `accepted` the call.
   */
  ghost function FinishFired(t: Tree, n: nat, accepted: bool): Tree
    requires FinishFirable(t, n)
  {
    FinishInputs(t, n);
    var k := t.reporters[n].finishTask.value;
    var op := t.ops[k];
    var request := op.kind.finishRequest;
    var r := t.reporters[n];
    match FinishVerdict(t.ops, t.reporters, n)
    case MissingInfo =>
      t.(ops := t.ops[k := op.(status := Failed(MissingTestInfo))])
    case ChildFailed =>
      t.(ops := t.ops[k := op.(status := Failed(ChildItemsFailedToFinish))],
         reporters := t.reporters[n := Released(r, request)])
    case Send =>
      var info := r.testInfo.value;
      var c := FinishItemCall(n, info.id, Clamp(request.endTime, info.startTime), Registry(r.childTestReporters));
      t.(ops := t.ops[k := op.(status := if accepted then Succeeded else Failed(TransportRejected))],
         reporters := t.reporters[n := Released(r, request)],
         calls := t.calls + [c])
  }

  /** Firing a finish keeps the tree consistent. */
  lemma FinishFiredPreserves(t: Tree, n: nat, accepted: bool)
    requires FinishFirable(t, n)
    ensures Consistent(FinishFired(t, n, accepted))
  {
    var t' := FinishFired(t, n, accepted);
    var k := t.reporters[n].finishTask.value;
    FinishFiredLocal(t, n, accepted);
    FireOrdered(t, t', k);
    FireShape(t, t', k);
    FinishFiredStatuses(t, n, accepted);
    ClampedKept(t, t');
    FinishFiredCalls(t, n, accepted);
  }

  /** Only node `n` is affected by its finish firing. */
  lemma FinishFiredLocal(t: Tree, n: nat, accepted: bool)
    requires FinishFirable(t, n)
    ensures var t' := FinishFired(t, n, accepted);
      && Fires(t, t', t.reporters[n].finishTask.value) && RecordsKept(t, t') && InfoMatchesStart(t')
      && (forall m :: 0 <= m < |t.reporters| ==> StartSucceeded(t', m) == StartSucceeded(t, m))
      && (forall m :: 0 <= m < |t.reporters| && m != n ==>
            FinishSucceeded(t'.ops, t'.reporters, m) == FinishSucceeded(t.ops, t.reporters, m))
      && (forall m :: 0 <= m < |t.reporters| ==>
            && t'.reporters[m].testInfo.Some? == t.reporters[m].testInfo.Some?
            && (t.reporters[m].testInfo.Some? ==> t'.reporters[m].testInfo.value.startTime == t.reporters[m].testInfo.value.startTime))
  {
    var t' := FinishFired(t, n, accepted);
    FinishInputs(t, n);
    FinishFiredNodes(t, n, accepted);
    assert RecordsKept(t, t');
  }

  lemma FinishFiredNodes(t: Tree, n: nat, accepted: bool)
    requires FinishFirable(t, n)
    ensures var t' := FinishFired(t, n, accepted);
      && |t'.reporters| == |t.reporters|
      && (forall m :: 0 <= m < |t.reporters| ==> StartSucceeded(t', m) == StartSucceeded(t, m))
      && (forall m :: 0 <= m < |t.reporters| && m != n ==>
            FinishSucceeded(t'.ops, t'.reporters, m) == FinishSucceeded(t.ops, t.reporters, m))
      && (forall m :: 0 <= m < |t.reporters| ==> InfoKept(t, t', m))
      && InfoMatchesStart(t')
  {
    var t' := FinishFired(t, n, accepted);
    FinishInputs(t, n);
    forall m | 0 <= m < |t.reporters|
      ensures StartSucceeded(t', m) == StartSucceeded(t, m)
      ensures m != n ==> FinishSucceeded(t'.ops, t'.reporters, m) == FinishSucceeded(t.ops, t.reporters, m)
      ensures InfoKept(t, t', m)
      ensures t'.reporters[m].testInfo.Some? <==> StartSucceeded(t', m)
    {
      assert ReporterShape(t, m);
    }
  }

  lemma FinishFiredStatuses(t: Tree, n: nat, accepted: bool)
    requires FinishFirable(t, n)
    ensures SuccessPropagates(FinishFired(t, n, accepted))
  {
    var t' := FinishFired(t, n, accepted);
    var k := t.reporters[n].finishTask.value;
    FinishInputs(t, n);
    FinishFiredLocal(t, n, accepted);
    FireMonotone(t, t', k);
    forall j, i | 0 <= j < |t'.ops| && t'.ops[j].kind.ItemStart? && t'.ops[j].status == Succeeded &&
          0 <= i < |t'.ops[j].deps| && t'.ops[j].deps[i] < |t'.ops|
      ensures t'.ops[t'.ops[j].deps[i]].status == Succeeded
    {
      assert j != k;
      assert t.ops[t.ops[j].deps[i]].status == Succeeded;
    }
  }

  lemma FinishFiredCalls(t: Tree, n: nat, accepted: bool)
    requires FinishFirable(t, n)
    ensures var t' := FinishFired(t, n, accepted); CallsJustified(t') && CallsRecorded(t') && CallOrder(t')
  {
    var t' := FinishFired(t, n, accepted);
    var k := t.reporters[n].finishTask.value;
    FinishFiredLocal(t, n, accepted);
    FireJustifiesOld(t, t', k);
    FireMonotone(t, t', k);
    CalledBeforeKept(t, t');
    if FinishVerdict(t.ops, t.reporters, n) == Send {
      FinishCallFits(t, n, accepted);
      var c := t'.calls[|t.calls|];
      OrderAppend(t, t', c);
    } else {
      OrderSame(t, t');
    }
  }

  /** The call a sending finish appends is justified and fits the journal. */
  lemma FinishCallFits(t: Tree, n: nat, accepted: bool)
    requires FinishFirable(t, n) && FinishVerdict(t.ops, t.reporters, n) == Send
    ensures var t' := FinishFired(t, n, accepted);
      && |t'.calls| == |t.calls| + 1 && t'.calls == t.calls + [t'.calls[|t.calls|]]
      && CallFits(t, t'.calls[|t.calls|]) && CallJustified(t', t'.calls[|t.calls|])
      && FinishCalledBefore(t', n, |t'.calls|)
  {
    var t' := FinishFired(t, n, accepted);
    var k := t.reporters[n].finishTask.value;
    FinishInputs(t, n);
    FinishFiredLocal(t, n, accepted);
    FireMonotone(t, t', k);
    CalledMeansResolved(t, n);
    assert ReporterShape(t, n);
    var c := t'.calls[|t.calls|];
    var cs := c.checkedChildren;
    assert cs == Registry(t.reporters[n].childTestReporters);
    forall m | 0 <= m < |cs|
      ensures FinishSucceeded(t'.ops, t'.reporters, cs[m])
      ensures FinishCalledBefore(t, cs[m], |t.calls|)
    {
      assert FinishSucceeded(t.ops, t.reporters, cs[m]);
    }
  }

  /** The log or update at `k` is due to fire. */
  ghost predicate SideFirable(t: Tree, k: nat) {
    Consistent(t) && 0 < k < |t.ops| && t.ops[k].kind.IsSideChannel() && Runnable(t.ops, k)
  }

  /**
   * The log or update at `k` fires. Without item info (the start failed) the
   * log's wait on the start throws and the update dereferences the missing
   * info; otherwise the service is called, and the operation succeeds exactly
   * when the service `accepted` the call.
   */
  ghost function SideFired(t: Tree, k: nat, accepted: bool): Tree
    requires SideFirable(t, k)
  {
    assert OpShape(t, k);
    var op := t.ops[k];
    var r := t.reporters[op.kind.node];
    if r.testInfo.None? then
      t.(ops := t.ops[k := op.(status := Failed(if op.kind.ItemLog? then StartNotSucceeded else MissingTestInfo))])
    else
      t.(ops := t.ops[k := op.(status := if accepted then Succeeded else Failed(TransportRejected))],
         calls := t.calls + [SideCall(op.kind, r.testInfo.value, k)])
  }

  /** Waiting on a dependency means it settled first. */
  lemma DependencySettled(t: Tree, j: nat, d: nat)
    requires ResolutionOrdered(t) && j < |t.ops|
    ensures d in t.ops[j].deps && d < |t.ops| && t.ops[j].status != Pending ==> t.ops[d].status != Pending
  {
    if d in t.ops[j].deps {
      var i :| 0 <= i < |t.ops[j].deps| && t.ops[j].deps[i] == d;
    }
  }

  /** Every log call already made for the node of a pending log is for an earlier log. */
  lemma LogCallsEarlier(t: Tree, k: nat)
    requires Consistent(t) && 0 < k < |t.ops| && t.ops[k].kind.ItemLog? && t.ops[k].status == Pending
    ensures forall i :: 0 <= i < |t.calls| && t.calls[i].AddLogCall? && t.calls[i].node == t.ops[k].kind.node ==>
      t.calls[i].op < k
  {
    var n := t.ops[k].kind.node;
    forall i | 0 <= i < |t.calls| && t.calls[i].AddLogCall? && t.calls[i].node == n ensures t.calls[i].op < k {
      var j := t.calls[i].op;
      assert CallJustified(t, t.calls[i]);
      assert OpShape(t, j);
      assert SideTaskOf(t, k, n);
      DependencySettled(t, j, k);
    }
  }

  /** Firing a log or an update keeps the tree consistent. */
  lemma SideFiredPreserves(t: Tree, k: nat, accepted: bool)
    requires SideFirable(t, k)
    ensures Consistent(SideFired(t, k, accepted))
  {
    var t' := SideFired(t, k, accepted);
    SideFiredLocal(t, k, accepted);
    FireOrdered(t, t', k);
    FireShape(t, t', k);
    SideFiredStatuses(t, k, accepted);
    ClampedKept(t, t');
    SideFiredCalls(t, k, accepted);
  }

  /** A log or update firing changes no record and no structural outcome. */
  lemma SideFiredLocal(t: Tree, k: nat, accepted: bool)
    requires SideFirable(t, k)
    ensures var t' := SideFired(t, k, accepted);
      && Fires(t, t', k) && RecordsKept(t, t') && InfoMatchesStart(t') && t'.reporters == t.reporters
      && (forall m :: 0 <= m < |t.reporters| ==> StartSucceeded(t', m) == StartSucceeded(t, m))
      && (forall m :: 0 <= m < |t.reporters| ==> FinishSucceeded(t'.ops, t'.reporters, m) == FinishSucceeded(t.ops, t.reporters, m))
  {
    var t' := SideFired(t, k, accepted);
    assert OpShape(t, k);
    forall m | 0 <= m < |t.reporters|
      ensures StartSucceeded(t', m) == StartSucceeded(t, m)
      ensures FinishSucceeded(t'.ops, t'.reporters, m) == FinishSucceeded(t.ops, t.reporters, m)
      ensures InfoKept(t, t', m)
      ensures t'.reporters[m].testInfo.Some? <==> StartSucceeded(t', m)
    {
      assert ReporterShape(t, m);
    }
    assert RecordsKept(t, t');
  }

  lemma SideFiredStatuses(t: Tree, k: nat, accepted: bool)
    requires SideFirable(t, k)
    ensures SuccessPropagates(SideFired(t, k, accepted))
  {
    var t' := SideFired(t, k, accepted);
    SideFiredLocal(t, k, accepted);
    forall j, i | 0 <= j < |t'.ops| && t'.ops[j].kind.ItemStart? && t'.ops[j].status == Succeeded &&
          0 <= i < |t'.ops[j].deps| && t'.ops[j].deps[i] < |t'.ops|
      ensures t'.ops[t'.ops[j].deps[i]].status == Succeeded
    {
      assert j != k;
      assert t.ops[t.ops[j].deps[i]].status == Succeeded;
    }
  }

  lemma SideFiredCalls(t: Tree, k: nat, accepted: bool)
    requires SideFirable(t, k)
    ensures var t' := SideFired(t, k, accepted); CallsJustified(t') && CallsRecorded(t') && CallOrder(t')
  {
    SideCallsJustified(t, k, accepted);
    SideCallsRecorded(t, k, accepted);
    assert OpShape(t, k);
    if t.reporters[t.ops[k].kind.node].testInfo.Some? {
      SideCallOrdered(t, k, accepted);
    } else {
      OrderSame(t, SideFired(t, k, accepted));
    }
  }

  lemma SideCallsJustified(t: Tree, k: nat, accepted: bool)
    requires SideFirable(t, k)
    ensures CallsJustified(SideFired(t, k, accepted))
  {
    var t' := SideFired(t, k, accepted);
    SideFiredLocal(t, k, accepted);
    FireJustifiesOld(t, t', k);
    assert OpShape(t, k);
    assert ReporterShape(t, t.ops[k].kind.node);
  }

  lemma SideCallsRecorded(t: Tree, k: nat, accepted: bool)
    requires SideFirable(t, k)
    ensures CallsRecorded(SideFired(t, k, accepted))
  {
    var t' := SideFired(t, k, accepted);
    SideFiredLocal(t, k, accepted);
    CalledBeforeKept(t, t');
    assert OpShape(t, k);
  }

  /** The call a log or update of a started item appends keeps the journal ordered. */
  lemma SideCallOrdered(t: Tree, k: nat, accepted: bool)
    requires SideFirable(t, k) && t.ops[k].kind.node < |t.reporters|
    requires t.reporters[t.ops[k].kind.node].testInfo.Some?
    ensures CallOrder(SideFired(t, k, accepted))
  {
    var t' := SideFired(t, k, accepted);
    SideFiredLocal(t, k, accepted);
    var n := t.ops[k].kind.node;
    assert ReporterShape(t, n);
    if t.ops[k].kind.ItemLog? {
      LogCallsEarlier(t, k);
    }
    var c := t'.calls[|t.calls|];
    assert t'.calls == t.calls + [c];
    OrderAppend(t, t', c);
  }
}
