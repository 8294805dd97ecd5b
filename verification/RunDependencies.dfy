/** Dependency safety: without retries, no node gets ahead of what it depends on. */
module RunDependencies {
  import opened Workflow
  import opened Scheduler
  import opened Topology
  import opened RunMachine
  import opened RunInvariant
  import opened RunSteps
  import opened RunGuarantees
  import opened RunProgress
  import opened RunCompletion

  /** Every node that is past pending has all its dependencies completed or skipped. */
  ghost predicate DependencySafe(doc: Document, nodes: seq<Node>)
  {
    Fits(doc, nodes) && forall i :: 0 <= i < |nodes| && nodes[i].phase != Pending ==> Stable(doc, nodes, i)
  }

  /** Done nodes stay done, so it is enough that nodes leave pending only when they may. */
  lemma SafeAfterMoves(doc: Document, a: seq<Node>, b: seq<Node>, starts: set<NodeId>)
    requires DependencySafe(doc, a) && AllMoved(a, b, starts)
    requires forall j :: 0 <= j < |a| && a[j].phase == Pending && b[j] != a[j] ==> Stable(doc, b, j)
    ensures DependencySafe(doc, b)
  {
    forall i | 0 <= i < |b| && b[i].phase != Pending ensures Stable(doc, b, i) {
      if b[i] == a[i] || a[i].phase != Pending {
        forall d | d in doc.nodes[i].dependsOn ensures Done(b[d]) { assert Done(a[d]); }
      }
    }
  }

  lemma StableStays(doc: Document, a: seq<Node>, b: seq<Node>, starts: set<NodeId>, i: NodeId)
    requires Fits(doc, a) && AllMoved(a, b, starts) && i < |a| && Stable(doc, a, i)
    ensures Stable(doc, b, i)
  {
    forall d | d in doc.nodes[i].dependsOn ensures Done(b[d]) { assert Done(a[d]); }
  }

  // ----- the controller's steps -----

  lemma EditOnActive(doc: Document, p: Progress, past: Past, e: Edit)
    requires DiskOk(doc, p.disk, past) && p.disk.run.phase != RunCompleted
    requires Applies(doc, p.disk, e) && Legal(p.disk, past.gone, e) && OnAttempt(e)
    ensures var b := Perform(doc, p, e).disk.nodes; |b| == |p.disk.nodes| && forall j :: 0 <= j < |b| && p.disk.nodes[j].phase == Pending ==> b[j] == p.disk.nodes[j]
  {
    hide DiskOk, Perform;
    EditKeeps(doc, p, past, e);
  }

  lemma SettlePending(sys: System, s: State, writes: nat, j: NodeId)
    requires Inv(sys, s) && j < |s.disk.nodes| && s.disk.nodes[j].phase == Pending
    ensures var b := DoSettle(sys, s, writes).disk.nodes; |b| == |s.disk.nodes| && b[j] == s.disk.nodes[j]
  {
    hide DiskOk, Perform, Legal;
    if s.stage.Observing? && s.stage.settled < |s.stage.refs| && AllObserved(s.stage) {
      var k := s.stage.refs[s.stage.settled];
      assert k in s.stage.refs;
      var e := EditFor(k, s.stage.verdicts[k]);
      if e.Some? && Mutable(s) {
        SettleLegal(sys, s);
        EditOnActive(sys.doc, Fresh(s, writes), s.past, e.value);
      }
    }
  }

  lemma ResolvePending(sys: System, s: State, k: Key, writes: nat, j: NodeId)
    requires Inv(sys, s) && j < |s.disk.nodes| && s.disk.nodes[j].phase == Pending
    ensures var b := DoResolve(sys, s, k, writes).disk.nodes; |b| == |s.disk.nodes| && b[j] == s.disk.nodes[j]
  {
    hide DiskOk, Perform;
    if s.stage == Launching && k in s.flights && Joined(s) && Mutable(s) {
      assert FlightOk(s, k);
      var edit := if s.flights[k].handle then Hold(k, CompletionMissing, None) else Lose(k);
      assert Legal(s.disk, s.past.gone, edit);
      if Applies(sys.doc, s.disk, edit) { EditOnActive(sys.doc, Fresh(s, writes), s.past, edit); }
    }
  }

  /** The scheduler decides a pending node only when its dependencies are done. */
  lemma SchedulePending(sys: System, s: State, limit: nat, writes: nat, j: NodeId)
    requires Inv(sys, s) && j < |s.disk.nodes| && s.disk.nodes[j].phase == Pending
    ensures var b := DoSchedule(sys, s, limit, writes).disk.nodes;
            |b| == |s.disk.nodes| && Fits(sys.doc, s.disk.nodes) && (b[j] != s.disk.nodes[j] ==> Stable(sys.doc, s.disk.nodes, j))
  {
    hide DiskOk, Plan, PerformAll, Aggregate, EditsOf, Moves, AllApply;
    DiskNodes(sys.doc, s.disk, s.past);
    ScheduleMoves(sys, s, limit, writes);
    if s.stage == Idle && Mutable(s) {
      var plan := Plan(sys.doc, s.disk.run.conclusion, s.disk.nodes, limit);
      if plan.Ok? {
        BatchMoves(sys, s, limit, writes);
        var es := EditsOf(plan.value);
        assert Moved(s.disk, DoSchedule(sys, s, limit, writes).disk, es, j);
        if Touched(es, j) {
          DecisionApart(sys, s.disk, limit);
          var i :| 0 <= i < |es| && NodeOf(es[i]) == j;
          assert FatedEdit(sys, s.disk, es[i]);
          DecidedIsStable(sys, s.disk, es[i]);
        }
      }
    }
  }

  lemma DecidedIsStable(sys: System, d: Disk, e: Edit)
    requires Fits(sys.doc, d.nodes) && FatedEdit(sys, d, e) && d.nodes[NodeOf(e)].phase == Pending
    ensures Stable(sys.doc, d.nodes, NodeOf(e))
  {
  }

  // ----- the cancellation -----

  lemma {:induction false} LeftoversIncrease(nodes: seq<Node>)
    ensures Increasing(Leftovers(nodes), |nodes|)
  {
    if nodes != [] {
      var n := |nodes| - 1;
      LeftoversIncrease(nodes[..n]);
      var before := Leftovers(nodes[..n]);
      assert Increasing(before, n) && Increasing(before + [n], n + 1);
    }
  }

  ghost predicate DoneBelow(nodes: seq<Node>, i: NodeId)
  {
    i <= |nodes| && forall j :: 0 <= j < i ==> Done(nodes[j])
  }

  /** Nodes are dropped in topological order: whatever is dropped, everything before it is done. */
  lemma {:induction false} DropsInOrder(doc: Document, p: Progress, past: Past, ids: seq<NodeId>)
    requires DiskOk(doc, p.disk, past) && p.disk.run.phase != RunCompleted && Increasing(ids, |p.disk.nodes|)
    requires forall i :: 0 <= i < |p.disk.nodes| ==> Done(p.disk.nodes[i]) || i in ids
    requires var es := Drops(ids, WorkflowCancelled); AllApply(doc, p.disk, es) && AllLegal(p.disk, past.gone, es) && Apart(es)
    ensures
      var q := PerformAll(doc, p, Drops(ids, WorkflowCancelled)).disk;
      && (forall i :: 0 <= i < |p.disk.nodes| && Done(p.disk.nodes[i]) ==> q.nodes[i] == p.disk.nodes[i])
      && (forall i :: 0 <= i < |p.disk.nodes| && q.nodes[i] != p.disk.nodes[i] ==> DoneBelow(q.nodes, i))
    decreases |ids|
  {
    hide DiskOk, Perform, Legal, PerformAll;
    var es := Drops(ids, WorkflowCancelled);
    if ids == [] {
      assert es == [];
      NothingPerformed(doc, p);
    } else {
      var first, more := ids[0], ids[1..];
      var p1, rest := Perform(doc, p, es[0]), Drops(more, WorkflowCancelled);
      assert es[1..] == rest;
      FirstPerformed(doc, p, es);
      EditKeeps(doc, p, past, es[0]);
      EditQuiet(doc, p, past, es[0]);
      RestLegal(doc, p, past, es);
      EarlierDone(p.disk, ids);
      DropsOpen(p.disk, past.gone, es[0]);
      if p1.ok {
        forall i | 0 <= i < |p.disk.nodes| ensures Done(p1.disk.nodes[i]) || i in more {
          if i in ids && i != first { assert ids == [first] + more; }
        }
        DropsInOrder(doc, p1, past, more);
      } else {
        FaultsStay(doc, p1, rest);
        DropAllOrNothing(doc, p, es[0]);
      }
    }
  }

  lemma DropsOpen(d: Disk, gone: set<Key>, e: Edit)
    requires Legal(d, gone, e) && e.Drop?
    ensures !Done(d.nodes[e.i])
  {
  }

  lemma NothingPerformed(doc: Document, p: Progress)
    requires |p.disk.nodes| == |doc.nodes|
    ensures PerformAll(doc, p, []) == p
  {
  }

  lemma FirstPerformed(doc: Document, p: Progress, es: seq<Edit>)
    requires es != [] && AllApply(doc, p.disk, es)
    ensures AllApply(doc, Perform(doc, p, es[0]).disk, es[1..])
    ensures PerformAll(doc, p, es) == PerformAll(doc, Perform(doc, p, es[0]), es[1..])
  {
    assert forall i :: 0 <= i < |es| - 1 ==> es[1..][i] == es[i + 1];
  }

  lemma DropAllOrNothing(doc: Document, p: Progress, e: Edit)
    requires Applies(doc, p.disk, e) && e.Drop?
    ensures !Perform(doc, p, e).ok ==> Perform(doc, p, e).disk == p.disk
  {
  }

  lemma EarlierDone(d: Disk, ids: seq<NodeId>)
    requires ids != [] && Increasing(ids, |d.nodes|) && forall i :: 0 <= i < |d.nodes| ==> Done(d.nodes[i]) || i in ids
    ensures forall j :: 0 <= j < ids[0] ==> Done(d.nodes[j])
    ensures Increasing(ids[1..], |d.nodes|)
  {
  }

  /** After confirming, whatever the cancellation drops has everything before it done. */
  lemma CancelPending(sys: System, s: State, writes: nat, j: NodeId)
    requires Inv(sys, s) && s.canceller.Polling? && s.disk.run.phase != RunCompleted && AllApply(sys.doc, s.disk, CancelEdits(s.canceller))
    requires j < |s.disk.nodes| && s.disk.nodes[j].phase == Pending && !LeftAtWork(s.disk.nodes, s.canceller.targets)
    ensures
      var b := CancelWrites(sys, s, writes).disk.nodes;
      |b| == |s.disk.nodes| && (b[j] != s.disk.nodes[j] ==> DoneBelow(b, j))
  {
    hide DiskOk, PerformAll, AllApply, Leftovers, Moves, Legal, CancelEdits;
    var p := PerformAll(sys.doc, Fresh(s, writes), CancelEdits(s.canceller));
    AnswersMove(sys, s, writes);
    TargetsNotPending(sys, s, p.disk, j);
    if AllConfirmed(s.canceller) {
      DiskNodes(sys.doc, p.disk, s.past);
      DropsLegal(sys.doc, p.disk, s.past.gone);
      if p.ok {
        LeftoversExactly(p.disk.nodes);
        LeftoversIncrease(p.disk.nodes);
        forall i | 0 <= i < |p.disk.nodes| ensures Done(p.disk.nodes[i]) || i in Leftovers(p.disk.nodes) { AfterConfirming(sys, s, writes, i); }
        DropsInOrder(sys.doc, p, s.past, Leftovers(p.disk.nodes));
        var q := PerformAll(sys.doc, p, Drops(Leftovers(p.disk.nodes), WorkflowCancelled)).disk;
        assert CancelWrites(sys, s, writes).disk.nodes == q.nodes;
      } else {
        FaultsStay(sys.doc, p, Drops(Leftovers(p.disk.nodes), WorkflowCancelled));
      }
    }
  }

  lemma TargetsNotPending(sys: System, s: State, d: Disk, j: NodeId)
    requires Inv(sys, s) && s.canceller.Polling? && |d.nodes| == |s.disk.nodes| && j < |d.nodes|
    requires Moved(s.disk, d, CancelEdits(s.canceller), j) && s.disk.nodes[j].phase == Pending
    ensures d.nodes[j] == s.disk.nodes[j]
  {
    hide DiskOk, FlightOk;
    var es := CancelEdits(s.canceller);
    forall i | 0 <= i < |es| ensures NodeOf(es[i]) != j { assert s.canceller.targets[i] in s.canceller.targets; }
    assert !Touched(es, j);
  }

  lemma ApplyCancelSafe(sys: System, s: State, writes: nat)
    requires Inv(sys, s) && DependencySafe(sys.doc, s.disk.nodes)
    requires !Revives(s, ApplyCancel(writes)) && !Abandons(s, ApplyCancel(writes))
    ensures DependencySafe(sys.doc, DoApplyCancel(sys, s, writes).disk.nodes)
  {
    hide DiskOk, CancelWrites, AllApply, Moves, FlightOk, Revives, LeftAtWork;
    var t := DoApplyCancel(sys, s, writes);
    ApplyCancelMoves(sys, s, writes);
    if t.disk != s.disk {
      forall j | 0 <= j < |s.disk.nodes| && s.disk.nodes[j].phase == Pending && t.disk.nodes[j] != s.disk.nodes[j]
        ensures Stable(sys.doc, t.disk.nodes, j)
      {
        CancelPending(sys, s, writes, j);
      }
      SafeAfterMoves(sys.doc, s.disk.nodes, t.disk.nodes, {});
    }
  }

  // ----- recovery -----

  /** Once its one attempt is concluded, whatever recovery drops has everything before it done. */
  lemma RecoverPending(sys: System, s: State, first: Option<Key>, writes: nat, j: NodeId)
    requires DiskOk(sys.doc, s.disk, s.past) && s.disk.run.phase != RunCompleted && s.disk.run.cancelRequested
    requires (first.Some? ==> AtHand(s.disk, first.value)) && !LeftAtWork(s.disk.nodes, KeysOf(first))
    requires |s.disk.nodes| == |sys.doc.nodes| && (first.Some? ==> Applies(sys.doc, s.disk, Conclude(first.value)))
    requires j < |s.disk.nodes| && s.disk.nodes[j].phase == Pending
    ensures
      var b := RecoveryWrites(sys, s, first, writes).disk.nodes;
      |b| == |s.disk.nodes| && (b[j] != s.disk.nodes[j] ==> DoneBelow(b, j))
  {
    hide DiskOk, PerformAll, Perform, AllApply, Leftovers, Legal;
    DiskNodes(sys.doc, s.disk, s.past);
    var p := Fresh(s, writes);
    if first.Some? {
      ConcludeLegal(sys.doc, s.disk, s.past, first.value);
      p := Perform(sys.doc, Fresh(s, writes), Conclude(first.value));
      EditKeeps(sys.doc, Fresh(s, writes), s.past, Conclude(first.value));
      EditQuiet(sys.doc, Fresh(s, writes), s.past, Conclude(first.value));
      DiskNodes(sys.doc, p.disk, s.past);
    }
    DropsLegal(sys.doc, p.disk, s.past.gone);
    if p.ok {
      LeftoversExactly(p.disk.nodes);
      LeftoversIncrease(p.disk.nodes);
      forall i | 0 <= i < |p.disk.nodes| ensures Done(p.disk.nodes[i]) || i in Leftovers(p.disk.nodes) {
        if !Active(s.disk.nodes[i]) { InactiveNode(sys, s.disk, s.past, i); }
      }
      DropsInOrder(sys.doc, p, s.past, Leftovers(p.disk.nodes));
    } else {
      FaultsStay(sys.doc, p, Drops(Leftovers(p.disk.nodes), WorkflowCancelled));
    }
  }

  lemma RecoverEndSafe(sys: System, s: State, writes: nat)
    requires Inv(sys, s) && DependencySafe(sys.doc, s.disk.nodes) && !Abandons(s, RecoverEnd(writes))
    ensures DependencySafe(sys.doc, DoRecoverEnd(sys, s, writes).disk.nodes)
  {
    RecoverEndMoves(sys, s, writes);
    hide DiskOk, RecoveryWrites, Moves, FlightOk, LeftAtWork, DependencySafe;
    if s.stage.Recovering? && s.stage.progress.Ending? && s.disk.run.phase != RunCompleted {
      var first := s.stage.progress.first;
      RecoveryWritesKeep(sys, s, first, writes);
      var b := RecoveryWrites(sys, s, first, writes).disk.nodes;
      forall j | 0 <= j < |s.disk.nodes| && s.disk.nodes[j].phase == Pending && b[j] != s.disk.nodes[j] ensures DoneBelow(b, j) {
        RecoverPending(sys, s, first, writes, j);
      }
      hide Quiet, Subdued;
      DropsSafe(sys.doc, s.disk.nodes, b);
    }
  }

  /** Dropping nodes below which everything is done keeps the rest in order. */
  lemma DropsSafe(doc: Document, a: seq<Node>, b: seq<Node>)
    requires DependencySafe(doc, a) && AllMoved(a, b, {})
    requires forall j :: 0 <= j < |a| && a[j].phase == Pending && b[j] != a[j] ==> DoneBelow(b, j)
    ensures DependencySafe(doc, b)
  {
    hide Moves;
    forall j | 0 <= j < |a| && a[j].phase == Pending && b[j] != a[j] ensures Stable(doc, b, j) {}
    SafeAfterMoves(doc, a, b, {});
  }

  // ----- answers -----

  /** Nothing below a node that is not done has left pending. */
  lemma {:induction false} BelowIsPending(doc: Document, nodes: seq<Node>, i: NodeId, j: NodeId)
    requires DependencySafe(doc, nodes) && i < |nodes| && j < |nodes| && !Done(nodes[i]) && DependsOn(doc, j, i)
    ensures nodes[j].phase == Pending
    decreases j
  {
    var d :| d in doc.nodes[j].dependsOn && (d == i || DependsOn(doc, d, i));
    if d != i { BelowIsPending(doc, nodes, i, d); }
    assert !Stable(doc, nodes, j);
  }

  /** So the downstream reset that an answer plans is always empty. */
  lemma AnswerResetsNothing(doc: Document, nodes: seq<Node>, i: NodeId)
    requires DependencySafe(doc, nodes) && i < |nodes| && nodes[i].phase == Waiting
    ensures ResetBelow(doc, nodes, i) == nodes
  {
    forall j | 0 <= j < |nodes| ensures ResetBelow(doc, nodes, i)[j] == nodes[j] {
      if DependsOn(doc, j, i) { BelowIsPending(doc, nodes, i, j); }
    }
  }

  lemma ActSafe(sys: System, s: State, action: Action, writes: nat)
    requires Inv(sys, s) && DependencySafe(sys.doc, s.disk.nodes) && !action.Retry?
    ensures DependencySafe(sys.doc, DoAct(sys, s, action, writes).disk.nodes)
  {
    hide Repeats;
    if !AllowedAgain(s, action) && Allowed(s, action) {
      ActWritesNodes(sys.doc, Fresh(s, writes), action);
      hide Inv, ActWrites;
      var nodes, t := s.disk.nodes, DoAct(sys, s, action, writes).disk.nodes;
      if action.Answer? { AnswerResetsNothing(sys.doc, nodes, action.i); }
      forall j | 0 <= j < |t| && t[j].phase != Pending ensures Stable(sys.doc, t, j) {
        assert Stable(sys.doc, nodes, j);
        forall d | d in sys.doc.nodes[j].dependsOn ensures Done(t[d]) { assert Done(nodes[d]); }
      }
    }
  }

  // ----- all runs -----

  lemma StepSafe(sys: System, s: State, step: Step)
    requires Inv(sys, s) && DependencySafe(sys.doc, s.disk.nodes) && !(step.Act? && step.action.Retry?)
    requires !Revives(s, step) && !Abandons(s, step)
    ensures DependencySafe(sys.doc, Apply(sys, s, step).disk.nodes)
  {
    hide Inv, DependencySafe, AllMoved, Moves, Revives, Abandons, DoSettle, DoSchedule, DoResolve, DoApplyCancel, DoRecoverEnd, DoAct;
    match step
    case ApplyCancel(writes) => ApplyCancelSafe(sys, s, writes);
    case RecoverEnd(writes) => RecoverEndSafe(sys, s, writes);
    case Act(action, writes) => ActSafe(sys, s, action, writes);
    case Settle(writes) => SettleSafe(sys, s, writes);
    case Schedule(limit, writes) => ScheduleSafe(sys, s, limit, writes);
    case Resolve(k, writes) => ResolveSafe(sys, s, k, writes);
    case _ => PlainMoves(sys, s, step);
  }

  lemma SettleSafe(sys: System, s: State, writes: nat)
    requires Inv(sys, s) && DependencySafe(sys.doc, s.disk.nodes)
    ensures DependencySafe(sys.doc, DoSettle(sys, s, writes).disk.nodes)
  {
    hide Inv, DoSettle, Moves;
    SettleMoves(sys, s, writes);
    forall j | 0 <= j < |s.disk.nodes| && s.disk.nodes[j].phase == Pending
      ensures DoSettle(sys, s, writes).disk.nodes[j] == s.disk.nodes[j]
    {
      SettlePending(sys, s, writes, j);
    }
    SafeAfterMoves(sys.doc, s.disk.nodes, DoSettle(sys, s, writes).disk.nodes, {});
  }

  lemma ResolveSafe(sys: System, s: State, k: Key, writes: nat)
    requires Inv(sys, s) && DependencySafe(sys.doc, s.disk.nodes)
    ensures DependencySafe(sys.doc, DoResolve(sys, s, k, writes).disk.nodes)
  {
    hide Inv, DoResolve, Moves;
    ResolveMoves(sys, s, k, writes);
    forall j | 0 <= j < |s.disk.nodes| && s.disk.nodes[j].phase == Pending
      ensures DoResolve(sys, s, k, writes).disk.nodes[j] == s.disk.nodes[j]
    {
      ResolvePending(sys, s, k, writes, j);
    }
    SafeAfterMoves(sys.doc, s.disk.nodes, DoResolve(sys, s, k, writes).disk.nodes, {});
  }

  lemma ScheduleSafe(sys: System, s: State, limit: nat, writes: nat)
    requires Inv(sys, s) && DependencySafe(sys.doc, s.disk.nodes)
    ensures DependencySafe(sys.doc, DoSchedule(sys, s, limit, writes).disk.nodes)
  {
    hide Inv, DoSchedule, Moves, Starters;
    var b, starts := DoSchedule(sys, s, limit, writes).disk.nodes, Starters(sys, s, Schedule(limit, writes));
    ScheduleMoves(sys, s, limit, writes);
    forall j | 0 <= j < |s.disk.nodes| && s.disk.nodes[j].phase == Pending && b[j] != s.disk.nodes[j] ensures Stable(sys.doc, b, j) {
      SchedulePending(sys, s, limit, writes, j);
      StableStays(sys.doc, s.disk.nodes, b, starts, j);
    }
    SafeAfterMoves(sys.doc, s.disk.nodes, b, starts);
  }

  /** A step that keeps the order of things: it retries no node, revives none and leaves none behind. */
  ghost predicate Orderly(s: State, step: Step)
  {
    !(step.Act? && step.action.Retry?) && !Revives(s, step) && !Abandons(s, step)
  }

  /** In every run of such steps, at every moment and after every crash, a node that is
      ready, running, waiting, completed or skipped has all its dependencies done. */
  lemma {:induction false} DependenciesHold(sys: System, steps: seq<Step>)
    requires Ordered(sys.doc) && forall n :: 0 <= n < |steps| ==> Orderly(After(sys, steps[..n]), steps[n])
    ensures DependencySafe(sys.doc, After(sys, steps).disk.nodes)
  {
    hide Inv, Apply, Revives, Abandons;
    if steps != [] {
      var n := |steps| - 1;
      forall m | 0 <= m < n ensures Orderly(After(sys, steps[..n][..m]), steps[..n][m]) { assert steps[..n][..m] == steps[..m]; }
      DependenciesHold(sys, steps[..n]);
      ReachedInv(sys, steps[..n]);
      StepSafe(sys, After(sys, steps[..n]), steps[n]);
    }
  }
}
