/** Progress: how nodes move, the concurrency cap, dependency safety and termination. */
module RunProgress {
  import opened Workflow
  import opened Scheduler
  import opened Topology
  import opened RunMachine
  import opened RunInvariant
  import opened RunSteps
  import opened RunGuarantees

  // ----- how one node may move -----

  /** The moves of a node without a retry or an answer: it is skipped, asked, assigned, held
      or completed, and once done it stays as it is. */
  ghost predicate Moves(a: Node, b: Node)
  {
    b.kind == a.kind &&
    (|| (Leftover(a) && b.phase == Skipped && b.attempt == a.attempt)
     || (Unstarted(a) && a.kind == Approval && b.phase == Waiting && b.attempt == a.attempt)
     || (Unstarted(a) && a.kind == Agent && b.phase == Running && b.attempt == a.attempt + 1)
     || (WaitingApproval(a) && b.phase == Completed && b.attempt == a.attempt)
     || (Active(a) && (b.phase == Waiting || b.phase == Completed) && b.attempt == a.attempt)
     || (CancelledNode(a) && CancelledNode(b) && b.attempt == a.attempt))
  }

  /** The one move back: a node that recovery has concluded, and whose target the canceller
      then records as refused. */
  predicate Revived(a: Node, b: Node) { CancelledNode(a) && b.phase == Waiting && b.kind == a.kind && b.attempt == a.attempt }

  ghost predicate Refused(es: seq<Edit>, j: NodeId) { exists i :: 0 <= i < |es| && es[i].Refuse? && NodeOf(es[i]) == j }

  /** Node j after some edits: as before, or moved once by the edit that concerns it. */
  ghost predicate Moved(d: Disk, e: Disk, es: seq<Edit>, j: NodeId)
    requires j < |d.nodes| && |e.nodes| == |d.nodes|
  {
    || e.nodes[j] == d.nodes[j]
    || (Touched(es, j) && Moves(d.nodes[j], e.nodes[j]) && (e.nodes[j].phase == Running ==> Assign(j) in es))
    || (Refused(es, j) && Revived(d.nodes[j], e.nodes[j]))
  }

  lemma EditMoves(doc: Document, p: Progress, past: Past, e: Edit)
    requires Applies(doc, p.disk, e) && Legal(p.disk, past.gone, e)
    ensures
      var q, j := Perform(doc, p, e).disk, NodeOf(e);
      || q.nodes[j] == p.disk.nodes[j] || (Moves(p.disk.nodes[j], q.nodes[j]) && (q.nodes[j].phase == Running ==> e == Assign(j)))
      || (e.Refuse? && Revived(p.disk.nodes[j], q.nodes[j]))
  {
  }

  lemma {:induction false} EditsMove(doc: Document, p: Progress, past: Past, es: seq<Edit>, j: NodeId)
    requires DiskOk(doc, p.disk, past) && p.disk.run.phase != RunCompleted && j < |p.disk.nodes|
    requires AllApply(doc, p.disk, es) && AllLegal(p.disk, past.gone, es) && Apart(es)
    ensures Moved(p.disk, PerformAll(doc, p, es).disk, es, j)
    decreases |es|
  {
    hide DiskOk, Perform, Legal, Moves, Revived;
    if es != [] {
      var p1, rest := Perform(doc, p, es[0]), es[1..];
      EditKeeps(doc, p, past, es[0]);
      EditMoves(doc, p, past, es[0]);
      RestLegal(doc, p, past, es);
      EditsMove(doc, p1, past, rest, j);
      EditsKeep(doc, p1, past, rest);
      assert forall i :: 0 <= i < |rest| ==> rest[i] == es[i + 1];
      assert es[0] in es && forall e :: e in rest ==> e in es;
      if j == NodeOf(es[0]) {
        assert !Touched(rest, j) && !Refused(rest, j);
      } else {
        assert (Touched(rest, j) ==> Touched(es, j)) && (Refused(rest, j) ==> Refused(es, j));
      }
    }
  }

  /** Nodes after a step: each as it was, or moved; only the given ones start to run. */
  ghost predicate AllMoved(a: seq<Node>, b: seq<Node>, starts: set<NodeId>)
  {
    |a| == |b| && forall j :: 0 <= j < |a| ==> b[j] == a[j] || (Moves(a[j], b[j]) && (b[j].phase == Running ==> j in starts))
  }

  lemma OneEditMoves(sys: System, s: State, writes: nat, e: Edit)
    requires Inv(sys, s) && Applies(sys.doc, s.disk, e) && Legal(s.disk, s.past.gone, e) && Mutable(s) && !e.Assign? && !e.Refuse?
    ensures AllMoved(s.disk.nodes, Perform(sys.doc, Fresh(s, writes), e).disk.nodes, {})
  {
    hide DiskOk, Legal, Perform, Moves;
    EditKeeps(sys.doc, Fresh(s, writes), s.past, e);
    EditMoves(sys.doc, Fresh(s, writes), s.past, e);
  }

  lemma SettleMoves(sys: System, s: State, writes: nat)
    requires Inv(sys, s)
    ensures AllMoved(s.disk.nodes, DoSettle(sys, s, writes).disk.nodes, {})
  {
    hide DiskOk, Perform, Legal, Moves;
    if s.stage.Observing? && s.stage.settled < |s.stage.refs| && AllObserved(s.stage) {
      var k := s.stage.refs[s.stage.settled];
      assert k in s.stage.refs;
      var e := EditFor(k, s.stage.verdicts[k]);
      if e.Some? && Mutable(s) {
        SettleLegal(sys, s);
        OneEditMoves(sys, s, writes, e.value);
      }
    }
  }

  lemma ResolveMoves(sys: System, s: State, k: Key, writes: nat)
    requires Inv(sys, s)
    ensures AllMoved(s.disk.nodes, DoResolve(sys, s, k, writes).disk.nodes, {})
  {
    hide DiskOk, Perform, Moves;
    if s.stage == Launching && k in s.flights && Joined(s) && Mutable(s) {
      assert FlightOk(s, k);
      var edit := if s.flights[k].handle then Hold(k, CompletionMissing, None) else Lose(k);
      assert Legal(s.disk, s.past.gone, edit);
      if Applies(sys.doc, s.disk, edit) { OneEditMoves(sys, s, writes, edit); }
    }
  }

  /** What a batch does to the nodes: agents start running only where the decision says so. */
  lemma BatchMoves(sys: System, s: State, limit: nat, writes: nat)
    requires Inv(sys, s) && s.stage == Idle && Mutable(s)
    requires Plan(sys.doc, s.disk.run.conclusion, s.disk.nodes, limit).Ok?
    ensures
      var plan, t := Plan(sys.doc, s.disk.run.conclusion, s.disk.nodes, limit).value, DoSchedule(sys, s, limit, writes);
      && |t.disk.nodes| == |s.disk.nodes|
      && forall j :: 0 <= j < |s.disk.nodes| ==> Moved(s.disk, t.disk, EditsOf(plan), j)
  {
    hide DiskOk, Plan, PerformAll, Aggregate, EditsOf, Moves;
    DiskNodes(sys.doc, s.disk, s.past);
    var plan := Plan(sys.doc, s.disk.run.conclusion, s.disk.nodes, limit).value;
    DecisionLegal(sys, s.disk, limit, s.past.gone);
    EditsKeep(sys.doc, Fresh(s, writes), s.past, EditsOf(plan));
    var p, t := PerformAll(sys.doc, Fresh(s, writes), EditsOf(plan)), DoSchedule(sys, s, limit, writes);
    assert t.disk.nodes == p.disk.nodes;
    forall j | 0 <= j < |s.disk.nodes| ensures Moved(s.disk, t.disk, EditsOf(plan), j) { EditsMove(sys.doc, Fresh(s, writes), s.past, EditsOf(plan), j); }
  }

  ghost function SetOf(ids: seq<NodeId>): set<NodeId> { set i | i in ids }

  /** The agents that a step may start to run. */
  ghost function Starters(sys: System, s: State, step: Step): set<NodeId>
  {
    if step.Schedule? && Fits(sys.doc, s.disk.nodes) && Plan(sys.doc, s.disk.run.conclusion, s.disk.nodes, step.limit).Ok?
    then SetOf(Plan(sys.doc, s.disk.run.conclusion, s.disk.nodes, step.limit).value.readyAgents)
    else {}
  }

  lemma ScheduleMoves(sys: System, s: State, limit: nat, writes: nat)
    requires Inv(sys, s)
    ensures AllMoved(s.disk.nodes, DoSchedule(sys, s, limit, writes).disk.nodes, Starters(sys, s, Schedule(limit, writes)))
  {
    hide DiskOk, Plan, PerformAll, Aggregate, EditsOf, Moves, AllApply;
    if s.stage == Idle && Mutable(s) && Fits(sys.doc, s.disk.nodes) {
      var plan := Plan(sys.doc, s.disk.run.conclusion, s.disk.nodes, limit);
      if plan.Ok? {
        BatchMoves(sys, s, limit, writes);
        var t := DoSchedule(sys, s, limit, writes);
        forall j | 0 <= j < |s.disk.nodes|
          ensures t.disk.nodes[j] == s.disk.nodes[j]
                  || (Moves(s.disk.nodes[j], t.disk.nodes[j]) && (t.disk.nodes[j].phase == Running ==> j in plan.value.readyAgents))
        {
          assert Moved(s.disk, t.disk, EditsOf(plan.value), j);
          AssignedReady(plan.value, j);
          NothingRefused(plan.value, j);
        }
      }
    }
  }

  lemma NothingRefused(d: Decision, j: NodeId)
    ensures !Refused(EditsOf(d), j)
  {
  }

  /** A target is moved by the answer to its cancellation only. */
  lemma AnsweredNode(sys: System, s: State, d: Disk, j: NodeId)
    requires Inv(sys, s) && s.canceller.Polling? && |d.nodes| == |s.disk.nodes| && j < |d.nodes|
    requires Moved(s.disk, d, CancelEdits(s.canceller), j)
    ensures d.nodes[j] == s.disk.nodes[j]
            || (InPlay(s.disk.nodes[j]) && !Leftover(d.nodes[j]) && d.nodes[j].phase != Running
                && (Moves(s.disk.nodes[j], d.nodes[j]) || (Revived(s.disk.nodes[j], d.nodes[j]) && Refused(CancelEdits(s.canceller), j))))
  {
    hide DiskOk, FlightOk, Leftovers;
    if d.nodes[j] != s.disk.nodes[j] {
      var es := CancelEdits(s.canceller);
      var i :| 0 <= i < |es| && NodeOf(es[i]) == j;
      assert s.canceller.targets[i] in s.canceller.targets;
      AgentInPlay(sys.doc, s.disk, s.past, s.canceller.targets[i]);
    }
  }

  /** A node that was a target is not dropped afterwards. */
  lemma CancelMovesOnce(sys: System, s: State, d: Disk, e: Disk, j: NodeId)
    requires Inv(sys, s) && s.canceller.Polling? && |d.nodes| == |s.disk.nodes| == |e.nodes| && j < |d.nodes|
    requires Moved(s.disk, d, CancelEdits(s.canceller), j) && Moved(d, e, Drops(Leftovers(d.nodes), WorkflowCancelled), j)
    ensures Turned(s, e, j) && Turned(s, d, j)
  {
    hide Inv, Moves, Revived, Leftovers, CancelEdits;
    var drops := Drops(Leftovers(d.nodes), WorkflowCancelled);
    AnsweredNode(sys, s, d, j);
    if d.nodes[j] != s.disk.nodes[j] {
      LeftoversExactly(d.nodes);
      forall i | 0 <= i < |drops| ensures NodeOf(drops[i]) != j { assert Leftovers(d.nodes)[i] in Leftovers(d.nodes); }
      assert !Touched(drops, j) && !Refused(drops, j);
    }
  }

  /** Node j once the answers are recorded: as it was, moved, or turned back by a refusal. */
  ghost predicate Turned(s: State, d: Disk, j: NodeId)
    requires s.canceller.Polling? && |d.nodes| == |s.disk.nodes| && j < |d.nodes|
  {
    || d.nodes[j] == s.disk.nodes[j]
    || (Moves(s.disk.nodes[j], d.nodes[j]) && d.nodes[j].phase != Running)
    || (Revived(s.disk.nodes[j], d.nodes[j]) && Refused(CancelEdits(s.canceller), j))
  }

  lemma AssignedReady(d: Decision, i: NodeId)
    ensures Assign(i) in EditsOf(d) ==> i in d.readyAgents
  {
  }

  /** Confirming or refusing moves the active nodes. */
  lemma AnswersMove(sys: System, s: State, writes: nat)
    requires Inv(sys, s) && s.canceller.Polling? && s.disk.run.phase != RunCompleted && AllApply(sys.doc, s.disk, CancelEdits(s.canceller))
    ensures
      var p := PerformAll(sys.doc, Fresh(s, writes), CancelEdits(s.canceller));
      && DiskOk(sys.doc, p.disk, s.past) && p.disk.run.phase != RunCompleted && |p.disk.nodes| == |s.disk.nodes|
      && forall j :: 0 <= j < |s.disk.nodes| ==> Moved(s.disk, p.disk, CancelEdits(s.canceller), j)
  {
    hide DiskOk, PerformAll, AllApply, Moved, Legal, CancelEdits;
    CancelEditsLegal(sys, s);
    EditsKeep(sys.doc, Fresh(s, writes), s.past, CancelEdits(s.canceller));
    forall j | 0 <= j < |s.disk.nodes|
      ensures Moved(s.disk, PerformAll(sys.doc, Fresh(s, writes), CancelEdits(s.canceller)).disk, CancelEdits(s.canceller), j)
    {
      EditsMove(sys.doc, Fresh(s, writes), s.past, CancelEdits(s.canceller), j);
    }
  }

  /** Dropping moves what is left. */
  lemma CancelTurns(sys: System, s: State, writes: nat)
    requires Inv(sys, s) && s.canceller.Polling? && s.disk.run.phase != RunCompleted && AllApply(sys.doc, s.disk, CancelEdits(s.canceller))
    ensures
      var d := CancelWrites(sys, s, writes).disk;
      |d.nodes| == |s.disk.nodes| && forall j :: 0 <= j < |d.nodes| ==> Turned(s, d, j)
  {
    hide DiskOk, PerformAll, AllApply, Leftovers, Moves, Revived, Legal, CancelEdits;
    var p := PerformAll(sys.doc, Fresh(s, writes), CancelEdits(s.canceller));
    AnswersMove(sys, s, writes);
    DiskNodes(sys.doc, p.disk, s.past);
    DropsLegal(sys.doc, p.disk, s.past.gone);
    var drops := Drops(Leftovers(p.disk.nodes), WorkflowCancelled);
    var q, t := PerformAll(sys.doc, p, drops), CancelWrites(sys, s, writes);
    EditsKeep(sys.doc, p, s.past, drops);
    assert t.disk.nodes == if AllConfirmed(s.canceller) then q.disk.nodes else p.disk.nodes;
    forall j | 0 <= j < |s.disk.nodes| ensures Turned(s, t.disk, j) {
      EditsMove(sys.doc, p, s.past, drops, j);
      CancelMovesOnce(sys, s, p.disk, q.disk, j);
    }
  }

  /** Whether recording the answers refuses a target whose node is concluded already. */
  ghost predicate Revives(s: State, step: Step)
  {
    && step.ApplyCancel? && s.canceller.Polling?
    && exists k :: k in s.canceller.targets && k.node < |s.disk.nodes| && CancelledNode(s.disk.nodes[k.node])
                && !(k in s.canceller.polls && s.canceller.polls[k] == Answered(true))
  }

  lemma RefusedRevives(s: State, writes: nat, j: NodeId)
    requires s.canceller.Polling? && j < |s.disk.nodes| && CancelledNode(s.disk.nodes[j]) && Refused(CancelEdits(s.canceller), j)
    ensures Revives(s, ApplyCancel(writes))
  {
    var es, targets := CancelEdits(s.canceller), s.canceller.targets;
    var i :| 0 <= i < |es| && es[i].Refuse? && NodeOf(es[i]) == j;
    assert targets[i] in targets;
  }

  /** Recording the answers moves each node, or turns it back where a refusal revives it. */
  lemma ApplyCancelTurns(sys: System, s: State, writes: nat)
    requires Inv(sys, s)
    ensures
      var b := DoApplyCancel(sys, s, writes).disk.nodes;
      && |b| == |s.disk.nodes|
      && (forall j :: 0 <= j < |b| ==>
            || b[j] == s.disk.nodes[j] || (Moves(s.disk.nodes[j], b[j]) && b[j].phase != Running)
            || (Revives(s, ApplyCancel(writes)) && Revived(s.disk.nodes[j], b[j])))
  {
    hide DiskOk, CancelWrites, AllApply, Moves, CancelEdits, Revives, LeftAtWork;
    var t := DoApplyCancel(sys, s, writes);
    if t.disk != s.disk {
      CancelTurns(sys, s, writes);
      var d := CancelWrites(sys, s, writes).disk;
      forall j | 0 <= j < |d.nodes|
        ensures d.nodes[j] == s.disk.nodes[j] || (Moves(s.disk.nodes[j], d.nodes[j]) && d.nodes[j].phase != Running)
             || (Revives(s, ApplyCancel(writes)) && Revived(s.disk.nodes[j], d.nodes[j]))
      {
        assert Turned(s, d, j);
        if Refused(CancelEdits(s.canceller), j) && CancelledNode(s.disk.nodes[j]) { RefusedRevives(s, writes, j); }
      }
    }
  }

  lemma ApplyCancelMoves(sys: System, s: State, writes: nat)
    requires Inv(sys, s) && !Revives(s, ApplyCancel(writes))
    ensures AllMoved(s.disk.nodes, DoApplyCancel(sys, s, writes).disk.nodes, {})
  {
    hide Inv, DoApplyCancel, Moves, Revives;
    ApplyCancelTurns(sys, s, writes);
  }

  // ----- recovery -----

  /** Concluding moves the one node, and leaves nothing of it to drop. */
  lemma ConcludeMoves(doc: Document, p: Progress, past: Past, k: Key, j: NodeId)
    requires DiskOk(doc, p.disk, past) && Applies(doc, p.disk, Conclude(k)) && AtHand(p.disk, k) && j < |p.disk.nodes|
    ensures
      var n := Perform(doc, p, Conclude(k)).disk.nodes[j];
      n == p.disk.nodes[j] || (Moves(p.disk.nodes[j], n) && n.phase == Completed)
  {
    AgentInPlay(doc, p.disk, past, k);
    hide DiskOk;
  }

  /** The concluded node is not dropped afterwards. */
  lemma RecoveryMovesOnce(sys: System, s: State, first: Option<Key>, writes: nat, j: NodeId)
    requires DiskOk(sys.doc, s.disk, s.past) && s.disk.run.phase != RunCompleted && s.disk.run.cancelRequested
    requires (first.Some? ==> AtHand(s.disk, first.value)) && j < |s.disk.nodes|
    requires |s.disk.nodes| == |sys.doc.nodes| && (first.Some? ==> Applies(sys.doc, s.disk, Conclude(first.value)))
    ensures
      var b := RecoveryWrites(sys, s, first, writes).disk.nodes;
      |b| == |s.disk.nodes| && (b[j] == s.disk.nodes[j] || (Moves(s.disk.nodes[j], b[j]) && b[j].phase != Running))
  {
    hide DiskOk, PerformAll, Perform, AllApply, Leftovers, Legal, Moves, Applies, AtHand;
    DiskNodes(sys.doc, s.disk, s.past);
    var p := Fresh(s, writes);
    if first.Some? {
      ConcludeLegal(sys.doc, s.disk, s.past, first.value);
      p := Perform(sys.doc, Fresh(s, writes), Conclude(first.value));
      EditKeeps(sys.doc, Fresh(s, writes), s.past, Conclude(first.value));
      ConcludeMoves(sys.doc, Fresh(s, writes), s.past, first.value, j);
    }
    DropsLegal(sys.doc, p.disk, s.past.gone);
    AfterDropping(sys.doc, p, s.past, j);
    var drops := Drops(Leftovers(p.disk.nodes), WorkflowCancelled);
    EditsMove(sys.doc, p, s.past, drops, j);
    OnlyDrops(Leftovers(p.disk.nodes), j);
  }

  lemma OnlyDrops(ids: seq<NodeId>, j: NodeId)
    ensures !Refused(Drops(ids, WorkflowCancelled), j) && Assign(j) !in Drops(ids, WorkflowCancelled)
  {
  }

  lemma RecoverEndMoves(sys: System, s: State, writes: nat)
    requires Inv(sys, s)
    ensures AllMoved(s.disk.nodes, DoRecoverEnd(sys, s, writes).disk.nodes, {})
  {
    hide DiskOk, FlightOk, RecoveryWrites, Moves, LeftAtWork;
    if s.stage.Recovering? && s.stage.progress.Ending? && s.disk.run.phase != RunCompleted {
      var first := s.stage.progress.first;
      RecoveryWritesKeep(sys, s, first, writes);
      forall j | 0 <= j < |s.disk.nodes|
        ensures var b := RecoveryWrites(sys, s, first, writes).disk.nodes;
                b[j] == s.disk.nodes[j] || (Moves(s.disk.nodes[j], b[j]) && b[j].phase != Running)
      {
        RecoveryMovesOnce(sys, s, first, writes, j);
      }
    }
  }

  lemma DecideMoves(sys: System, s: State, action: Action, writes: nat)
    requires Inv(sys, s) && action.Decide?
    ensures AllMoved(s.disk.nodes, DoAct(sys, s, action, writes).disk.nodes, {})
  {
    if !AllowedAgain(s, action) && Allowed(s, action) { ActWritesNodes(sys.doc, Fresh(s, writes), action); }
    hide Repeats;
  }

  predicate Restarts(step: Step) { step.Act? && (step.action.Retry? || step.action.Answer?) }

  /** Without a retry or an answer, every step leaves each node as it is or moves it, unless
      it refuses a target that recovery has concluded. */
  lemma StepMoves(sys: System, s: State, step: Step)
    requires Inv(sys, s) && !Restarts(step) && !Revives(s, step)
    ensures AllMoved(s.disk.nodes, Apply(sys, s, step).disk.nodes, Starters(sys, s, step))
  {
    hide Inv, Moves, Revives, DoSettle, DoSchedule, DoResolve, DoApplyCancel, DoRecoverEnd, DoAct;
    match step
    case Settle(writes) => SettleMoves(sys, s, writes);
    case Schedule(limit, writes) => ScheduleMoves(sys, s, limit, writes);
    case Resolve(k, writes) => ResolveMoves(sys, s, k, writes);
    case ApplyCancel(writes) => ApplyCancelMoves(sys, s, writes);
    case RecoverEnd(writes) => RecoverEndMoves(sys, s, writes);
    case Act(action, writes) => DecideMoves(sys, s, action, writes);
    case _ => PlainMoves(sys, s, step);
  }

  /** The steps that write nodes. */
  predicate WritesNodes(step: Step)
  {
    step.Settle? || step.Schedule? || step.Resolve? || step.ApplyCancel? || step.RecoverEnd? || step.Act?
  }

  lemma PlainMoves(sys: System, s: State, step: Step)
    requires !WritesNodes(step)
    ensures Apply(sys, s, step).disk.nodes == s.disk.nodes
  {
    hide DoStartControl, DoFailControl, DoObserve, DoBegin, DoLand, DoMarkCancel, DoPollTarget, DoStartRecovery, DoRecoverMark, DoRecoverLook,
      DoBeginReconcile, DoRecoverAsk, DoCancelBackend;
    match step
    case StartControl(_, _) => ControlNodes(sys, s, step);
    case FailControl(_, _) => ControlNodes(sys, s, step);
    case Observe(_, _) => ControlNodes(sys, s, step);
    case BeginReconcile => ControlNodes(sys, s, step);
    case Begin(_, _) => LaunchNodes(sys, s, step);
    case Land(_, _) => LaunchNodes(sys, s, step);
    case MarkCancel(_) => CancelNodes(sys, s, step);
    case PollTarget(_, _) => CancelNodes(sys, s, step);
    case CancelBackend(_, _) => CancelNodes(sys, s, step);
    case StartRecovery(_) => RecoverNodes(sys, s, step);
    case RecoverMark(_) => RecoverNodes(sys, s, step);
    case RecoverLook(_) => RecoverNodes(sys, s, step);
    case RecoverAsk(_) => RecoverNodes(sys, s, step);
    case _ =>
  }

  lemma ControlNodes(sys: System, s: State, step: Step)
    requires step.StartControl? || step.FailControl? || step.Observe? || step.BeginReconcile?
    ensures Apply(sys, s, step).disk.nodes == s.disk.nodes && Apply(sys, s, step).canceller == s.canceller
  {
    hide Mutable, Joined, ActiveKeys;
  }

  lemma LaunchNodes(sys: System, s: State, step: Step)
    requires step.Begin? || step.Land?
    ensures Apply(sys, s, step).disk.nodes == s.disk.nodes && Apply(sys, s, step).canceller == s.canceller
  {
  }

  lemma CancelNodes(sys: System, s: State, step: Step)
    requires step.MarkCancel? || step.PollTarget? || step.CancelBackend?
    ensures Apply(sys, s, step).disk.nodes == s.disk.nodes
    ensures !step.MarkCancel? && s.canceller.Polling? ==> Apply(sys, s, step).canceller.Polling? && Apply(sys, s, step).canceller.targets == s.canceller.targets
    ensures !step.MarkCancel? && !s.canceller.Polling? ==> Apply(sys, s, step).canceller == s.canceller
  {
    hide Targets, ActiveKeys;
  }

  lemma RecoverNodes(sys: System, s: State, step: Step)
    requires step.StartRecovery? || step.RecoverMark? || step.RecoverLook? || step.RecoverAsk?
    ensures Apply(sys, s, step).disk.nodes == s.disk.nodes && Apply(sys, s, step).canceller == s.canceller
  {
    hide Picked;
  }

  // ----- the concurrency cap -----

  ghost function ActiveSet(nodes: seq<Node>): set<NodeId> { set i | 0 <= i < |nodes| && Active(nodes[i]) }

  lemma {:induction false} CountIsSize(nodes: seq<Node>)
    ensures CountActive(nodes) == |ActiveSet(nodes)|
  {
    if nodes != [] {
      var n := |nodes| - 1;
      CountIsSize(nodes[..n]);
      assert ActiveSet(nodes) == ActiveSet(nodes[..n]) + if Active(nodes[n]) then {n} else {};
    }
  }

  lemma {:induction false} SetNoLarger(ids: seq<NodeId>)
    ensures |SetOf(ids)| <= |ids|
  {
    if ids != [] {
      var n := |ids| - 1;
      SetNoLarger(ids[..n]);
      assert ids == ids[..n] + [ids[n]];
      var before := SetOf(ids[..n]);
      assert SetOf(ids) == before + {ids[n]};
      assert |before + {ids[n]}| <= |before| + 1;
    }
  }

  /** If only `starts` become active, the count grows by at most that many. */
  lemma CountGrows(a: seq<Node>, b: seq<Node>, starts: set<NodeId>)
    requires |a| == |b| && forall i :: 0 <= i < |b| && Active(b[i]) ==> Active(a[i]) || i in starts
    ensures CountActive(b) <= CountActive(a) + |starts|
  {
    CountIsSize(a);
    CountIsSize(b);
    assert ActiveSet(b) <= ActiveSet(a) + starts;
    Subset(ActiveSet(b), ActiveSet(a) + starts);
  }

  lemma {:induction false} Subset(a: set<NodeId>, b: set<NodeId>)
    requires a <= b
    ensures |a| <= |b|
  {
    if a != {} {
      var x :| x in a;
      Subset(a - {x}, b - {x});
    }
  }

  lemma MovedCount(a: seq<Node>, b: seq<Node>, starts: set<NodeId>)
    requires AllMoved(a, b, starts)
    ensures CountActive(b) <= CountActive(a) + |starts|
  {
    CountGrows(a, b, starts);
  }

  /** The limit that a step's batch works under, as it reads it; no other step has one. */
  function StepLimit(sys: System, step: Step): nat
  {
    if step.Schedule? && EffectiveConcurrency(sys.doc.maxConcurrency, step.limit).Ok?
       && EffectiveConcurrency(sys.doc.maxConcurrency, step.limit).value > 0
    then EffectiveConcurrency(sys.doc.maxConcurrency, step.limit).value else 0
  }

  /** The largest limit that any batch so far has worked under. */
  function Ceiling(sys: System, steps: seq<Step>): nat
  {
    if steps == [] then 0
    else
      var before, last := Ceiling(sys, steps[..|steps| - 1]), StepLimit(sys, steps[|steps| - 1]);
      if last > before then last else before
  }

  /** The agents that hold a slot or are being cancelled. */
  ghost function Engaged(s: State): set<NodeId>
  {
    ActiveSet(s.disk.nodes) + if s.canceller.Polling? then set k | k in s.canceller.targets :: k.node else {}
  }

  lemma ScheduleCanceller(sys: System, s: State, limit: nat, writes: nat)
    ensures DoSchedule(sys, s, limit, writes).canceller == s.canceller
    ensures s.disk.run.cancelRequested ==> DoSchedule(sys, s, limit, writes).disk == s.disk
  {
    hide Plan, PerformAll, AllApply, EditsOf, Aggregate;
  }

  lemma SameEngaged(s: State, t: State)
    requires t.disk.nodes == s.disk.nodes && t.canceller == s.canceller
    ensures Engaged(t) == Engaged(s)
  {
  }

  lemma FreeEngaged(s: State)
    requires !s.canceller.Polling?
    ensures Engaged(s) == ActiveSet(s.disk.nodes) && |Engaged(s)| == CountActive(s.disk.nodes)
  {
    CountIsSize(s.disk.nodes);
  }

  lemma PolledMeansRequested(s: State)
    requires CancelOk(s) && s.canceller.Polling?
    ensures s.disk.run.cancelRequested
  {
  }

  lemma ScheduleEngages(sys: System, s: State, limit: nat, writes: nat)
    requires Inv(sys, s)
    ensures var t := DoSchedule(sys, s, limit, writes);
            |Engaged(t)| <= |Engaged(s)| || |Engaged(t)| <= StepLimit(sys, Schedule(limit, writes))
  {
    if s.canceller.Polling? { PolledMeansRequested(s); }
    hide *;
    var t, starts := DoSchedule(sys, s, limit, writes), Starters(sys, s, Schedule(limit, writes));
    ScheduleCanceller(sys, s, limit, writes);
    if s.canceller.Polling? {
      SameEngaged(s, t);
    } else {
      ScheduleMoves(sys, s, limit, writes);
      StartersFit(sys, s, Schedule(limit, writes));
      MovedCount(s.disk.nodes, t.disk.nodes, starts);
      FreeEngaged(s);
      FreeEngaged(t);
      if starts == {} { assert |starts| == 0; }
    }
  }

  /** Without a batch, whatever holds a slot held one before, or was being cancelled. */
  lemma SlotsStay(sys: System, s: State, step: Step)
    requires Inv(sys, s) && !step.Schedule?
    ensures ActiveSet(Apply(sys, s, step).disk.nodes) <= Engaged(s)
  {
    hide Inv, Revives, DoSettle, DoSchedule, DoResolve, DoApplyCancel, DoRecoverEnd, DoAct, DoMarkCancel, DoRecoverMark, DoObserve, DoLand, DoBegin;
    if Restarts(step) {
      ActSlots(sys, s, step.action, step.writes);
    } else if step.ApplyCancel? {
      RecordSlots(sys, s, step.writes);
    } else {
      NeverRevives(s, step);
      StepMoves(sys, s, step);
    }
  }

  lemma NeverRevives(s: State, step: Step)
    requires !step.ApplyCancel?
    ensures !Revives(s, step)
  {
  }

  lemma ActSlots(sys: System, s: State, action: Action, writes: nat)
    requires Inv(sys, s)
    ensures ActiveSet(DoAct(sys, s, action, writes).disk.nodes) <= ActiveSet(s.disk.nodes)
  {
    if !AllowedAgain(s, action) && Allowed(s, action) { ActWritesNodes(sys.doc, Fresh(s, writes), action); }
    hide ActWrites, DiskOk;
  }

  lemma RecordSlots(sys: System, s: State, writes: nat)
    requires Inv(sys, s)
    ensures ActiveSet(DoApplyCancel(sys, s, writes).disk.nodes) <= Engaged(s)
  {
    ApplyCancelTurns(sys, s, writes);
    hide DiskOk, FlightsOk, ObservingOk, RecoverOk, CancelWrites, AllApply, LeftAtWork, Leftovers;
    var b := DoApplyCancel(sys, s, writes).disk.nodes;
    forall j | 0 <= j < |b| && Active(b[j]) && !Active(s.disk.nodes[j]) ensures j in Engaged(s) {
      assert Revived(s.disk.nodes[j], b[j]);
      RevivedIsTarget(sys, s, writes, j);
    }
  }

  lemma RevivedIsTarget(sys: System, s: State, writes: nat, j: NodeId)
    requires Inv(sys, s) && j < |s.disk.nodes|
    requires var b := DoApplyCancel(sys, s, writes).disk.nodes; j < |b| && Revived(s.disk.nodes[j], b[j])
    ensures s.canceller.Polling? && exists k :: k in s.canceller.targets && k.node == j
  {
    hide DiskOk, FlightsOk, ObservingOk, RecoverOk, CancelWrites, AllApply, LeftAtWork, Leftovers;
    if s.canceller.Polling? && s.disk.run.phase != RunCompleted && AllApply(sys.doc, s.disk, CancelEdits(s.canceller)) {
      CancelTurns(sys, s, writes);
      assert Turned(s, CancelWrites(sys, s, writes).disk, j);
      var i :| 0 <= i < |CancelEdits(s.canceller)| && CancelEdits(s.canceller)[i].Refuse? && NodeOf(CancelEdits(s.canceller)[i]) == j;
      assert s.canceller.targets[i] in s.canceller.targets;
    }
  }

  /** The targets of a cancellation were picked from the active agents. */
  lemma TargetsEngaged(sys: System, s: State, step: Step)
    requires Inv(sys, s)
    ensures var t := Apply(sys, s, step); t.canceller.Polling? ==> forall k :: k in t.canceller.targets ==> k.node in Engaged(s)
  {
    hide DiskOk, FlightsOk, ObservingOk, RecoverOk, CancelOk, DoStartControl, DoStopControl, DoFailControl, DoBeginReconcile, DoObserve, DoSettle,
      DoEndReconcile, DoSchedule, DoBegin, DoLoseDriver, DoCallStart, DoLand, DoResolve, DoEndLaunch, DoMarkCancel, DoApplyCancel, DoStartRecovery,
      DoRecoverMark, DoRecoverLook, DoRecoverGiveUp, DoRecoverAsk, DoRecoverEnd, DoAct, DoCrash;
    if step.MarkCancel? { MarkedEngaged(sys, s, step.writes); } else { SameTargets(sys, s, step); }
  }

  lemma MarkedEngaged(sys: System, s: State, writes: nat)
    requires Inv(sys, s)
    ensures var t := DoMarkCancel(s, writes); t.canceller.Polling? ==> forall k :: k in t.canceller.targets ==> k.node in Engaged(s)
  {
    hide DiskOk, FlightsOk, ObservingOk, RecoverOk, Targets, ActiveKeys;
    ActiveKeysExactly(s.disk.nodes);
    TargetsExactly(DoMarkCancel(s, writes).disk, ActiveKeys(s.disk.nodes));
  }

  lemma SameTargets(sys: System, s: State, step: Step)
    requires !step.MarkCancel?
    ensures var t := Apply(sys, s, step);
            t.canceller.Polling? ==> s.canceller.Polling? && t.canceller.targets == s.canceller.targets
  {
    hide DoStartControl, DoFailControl, DoObserve, DoBegin, DoLand, DoMarkCancel, DoPollTarget, DoStartRecovery, DoRecoverMark, DoRecoverLook,
      DoBeginReconcile, DoRecoverAsk, DoCancelBackend, DoSettle, DoSchedule, DoResolve, DoApplyCancel, DoRecoverEnd, DoAct;
    match step
    case StartControl(_, _) => ControlNodes(sys, s, step);
    case FailControl(_, _) => ControlNodes(sys, s, step);
    case Observe(_, _) => ControlNodes(sys, s, step);
    case BeginReconcile => ControlNodes(sys, s, step);
    case Begin(_, _) => LaunchNodes(sys, s, step);
    case Land(_, _) => LaunchNodes(sys, s, step);
    case PollTarget(_, _) => CancelNodes(sys, s, step);
    case CancelBackend(_, _) => CancelNodes(sys, s, step);
    case StartRecovery(_) => RecoverNodes(sys, s, step);
    case RecoverMark(_) => RecoverNodes(sys, s, step);
    case RecoverLook(_) => RecoverNodes(sys, s, step);
    case RecoverAsk(_) => RecoverNodes(sys, s, step);
    case Schedule(limit, writes) => ScheduleCanceller(sys, s, limit, writes);
    case Settle(_) => WritersTargets(sys, s, step);
    case Resolve(_, _) => WritersTargets(sys, s, step);
    case ApplyCancel(_) => RecordTargets(sys, s, step);
    case RecoverEnd(_) => RecordTargets(sys, s, step);
    case Act(_, _) => WritersTargets(sys, s, step);
    case _ =>
  }

  lemma WritersTargets(sys: System, s: State, step: Step)
    requires step.Settle? || step.Resolve? || step.Act?
    ensures Apply(sys, s, step).canceller == s.canceller
  {
    hide Perform, Applies, Mutable, Joined, EditFor, Takes, Repeats, ActWrites;
  }

  lemma RecordTargets(sys: System, s: State, step: Step)
    requires step.ApplyCancel? || step.RecoverEnd?
    ensures Apply(sys, s, step).canceller == s.canceller || Apply(sys, s, step).canceller == NoCancel
  {
    hide AllApply, CancelWrites, RecoveryWrites, LeftAtWork, Applies, AllAnswered;
  }

  /** No step engages agents beyond the limit of its own batch. */
  lemma StepWithinLimit(sys: System, s: State, step: Step)
    requires Inv(sys, s)
    ensures |Engaged(Apply(sys, s, step))| <= |Engaged(s)| || |Engaged(Apply(sys, s, step))| <= StepLimit(sys, step)
  {
    hide Inv, Apply, Engaged;
    if step.Schedule? {
      ScheduleStep(sys, s, step.limit, step.writes);
      ScheduleEngages(sys, s, step.limit, step.writes);
    } else {
      SlotsStay(sys, s, step);
      TargetsEngaged(sys, s, step);
      EngagedWithin(s, Apply(sys, s, step));
      Subset(Engaged(Apply(sys, s, step)), Engaged(s));
    }
  }

  lemma ScheduleStep(sys: System, s: State, limit: nat, writes: nat)
    ensures Apply(sys, s, Schedule(limit, writes)) == DoSchedule(sys, s, limit, writes)
  {
    hide DoSchedule;
  }

  lemma EngagedWithin(s: State, t: State)
    requires ActiveSet(t.disk.nodes) <= Engaged(s)
    requires t.canceller.Polling? ==> forall k :: k in t.canceller.targets ==> k.node in Engaged(s)
    ensures Engaged(t) <= Engaged(s)
  {
  }

  lemma StartersFit(sys: System, s: State, step: Step)
    requires Inv(sys, s)
    ensures Starters(sys, s, step) != {} ==> CountActive(s.disk.nodes) + |Starters(sys, s, step)| <= StepLimit(sys, step)
  {
    hide DiskOk, FlightsOk, CancelOk, ObservingOk, RecoverOk, Plan, CountActive, EffectiveConcurrency;
    DiskNodes(sys.doc, s.disk, s.past);
    if Starters(sys, s, step) != {} {
      DecisionFits(sys, s.disk, step.limit);
      SetNoLarger(Plan(sys.doc, s.disk.run.conclusion, s.disk.nodes, step.limit).value.readyAgents);
      var i :| i in Starters(sys, s, step);
      assert i in Plan(sys.doc, s.disk.run.conclusion, s.disk.nodes, step.limit).value.readyAgents;
    }
  }

  lemma DecisionFits(sys: System, d: Disk, limit: nat)
    requires Fits(sys.doc, d.nodes) && Plan(sys.doc, d.run.conclusion, d.nodes, limit).Ok?
    ensures
      var cap, ready := EffectiveConcurrency(sys.doc.maxConcurrency, limit), Plan(sys.doc, d.run.conclusion, d.nodes, limit).value.readyAgents;
      cap.Ok? && (ready != [] ==> CountActive(d.nodes) + |ready| <= cap.value)
  {
    hide FateOf, Fates, Fated, CountActive, Stops, Stable;
    DecisionMeaning(sys.doc, d.run.conclusion, d.nodes, limit);
  }

  lemma {:induction false} NoneYet(sys: System, n: nat)
    requires n <= |sys.doc.nodes|
    ensures CountActive(Initial(sys).disk.nodes[..n]) == 0
  {
    if n > 0 {
      NoneYet(sys, n - 1);
      assert Initial(sys).disk.nodes[..n][..n - 1] == Initial(sys).disk.nodes[..n - 1];
    }
  }

  /** In every reachable state the active agents, and with them those that are being
      cancelled, stay within the largest limit that a batch so far has read, which never
      passes the safety ceiling and the workflow's limit. */
  lemma {:induction false} CapHolds(sys: System, steps: seq<Step>)
    requires Ordered(sys.doc)
    ensures CountActive(After(sys, steps).disk.nodes) <= |Engaged(After(sys, steps))| <= Ceiling(sys, steps) <= SAFETY_CEILING
    ensures Ceiling(sys, steps) > 0 ==> Ceiling(sys, steps) <= sys.doc.maxConcurrency
  {
    hide Inv, Apply, CountActive;
    CountIsSize(After(sys, steps).disk.nodes);
    Subset(ActiveSet(After(sys, steps).disk.nodes), Engaged(After(sys, steps)));
    if steps == [] {
      NoneYet(sys, |sys.doc.nodes|);
      assert Initial(sys).disk.nodes[..|sys.doc.nodes|] == Initial(sys).disk.nodes;
      assert Engaged(Initial(sys)) == ActiveSet(Initial(sys).disk.nodes);
    } else {
      var n := |steps| - 1;
      CapHolds(sys, steps[..n]);
      ReachedInv(sys, steps[..n]);
      hide Engaged;
      StepWithinLimit(sys, After(sys, steps[..n]), steps[n]);
    }
  }

  /** With a backend that declares one limit throughout, no batch passes it. */
  lemma {:induction false} SteadyLimit(sys: System, steps: seq<Step>, backend: nat)
    requires backend > 0 && forall i :: 0 <= i < |steps| && steps[i].Schedule? ==> steps[i].limit == backend
    ensures Ceiling(sys, steps) <= backend
  {
    if steps != [] {
      var n := |steps| - 1;
      assert forall i :: 0 <= i < n ==> steps[..n][i] == steps[i];
      SteadyLimit(sys, steps[..n], backend);
    }
  }

  // ----- termination -----

  /** How far a node's phase is from the end. */
  function Rank(n: Node): nat
  {
    match n.phase
    case Pending => 3
    case Ready => 3
    case Running => 2
    case Waiting => 1
    case Completed => 0
    case Skipped => 0
  }

  function Work(nodes: seq<Node>): nat
  {
    if nodes == [] then 0 else Work(nodes[..|nodes| - 1]) + Rank(nodes[|nodes| - 1])
  }

  ghost predicate SamePhases(a: seq<Node>, b: seq<Node>)
  {
    |a| == |b| && forall i :: 0 <= i < |a| ==> a[i].phase == b[i].phase
  }

  lemma {:induction false} WorkFalls(a: seq<Node>, b: seq<Node>, starts: set<NodeId>)
    requires AllMoved(a, b, starts)
    ensures Work(b) <= Work(a)
    ensures SamePhases(a, b) || Work(b) < Work(a)
  {
    if a != [] {
      var n := |a| - 1;
      WorkFalls(a[..n], b[..n], starts);
      if SamePhases(a[..n], b[..n]) && a[n].phase == b[n].phase {
        assert forall i :: 0 <= i < n ==> a[i].phase == a[..n][i].phase && b[i].phase == b[..n][i].phase;
      }
    }
  }

  /** How many steps of a run change some node's phase. */
  ghost function PhaseChanges(sys: System, steps: seq<Step>): nat
  {
    if steps == [] then 0
    else
      var before := steps[..|steps| - 1];
      PhaseChanges(sys, before) + if SamePhases(After(sys, before).disk.nodes, After(sys, steps).disk.nodes) then 0 else 1
  }

  lemma {:induction false} InitialWork(sys: System, n: nat)
    requires n <= |sys.doc.nodes|
    ensures Work(Initial(sys).disk.nodes[..n]) == 3 * n
  {
    if n > 0 {
      InitialWork(sys, n - 1);
      assert Initial(sys).disk.nodes[..n][..n - 1] == Initial(sys).disk.nodes[..n - 1];
    }
  }

  /** How many recordings of a cancellation revive a concluded node. */
  ghost function Revivals(sys: System, steps: seq<Step>): nat
  {
    if steps == [] then 0
    else
      var before := steps[..|steps| - 1];
      Revivals(sys, before) + if Revives(After(sys, before), steps[|steps| - 1]) then 1 else 0
  }

  /** Nodes after a step that may revive some: each as it was, moved, or revived. */
  ghost predicate AllTurned(a: seq<Node>, b: seq<Node>)
  {
    |a| == |b| && forall j :: 0 <= j < |a| ==> b[j] == a[j] || Moves(a[j], b[j]) || Revived(a[j], b[j])
  }

  lemma {:induction false} WorkRises(a: seq<Node>, b: seq<Node>)
    requires AllTurned(a, b)
    ensures Work(b) <= Work(a) + |a|
  {
    if a != [] { WorkRises(a[..|a| - 1], b[..|a| - 1]); }
  }

  /** Runs end: without retries and answers, at most three steps for each node of the
      workflow ever change a phase, and one for each node, and itself, with every recording
      that revives one, whatever faults and crashes happen. */
  lemma {:induction false} PhaseChangesAreBounded(sys: System, steps: seq<Step>)
    requires Ordered(sys.doc) && forall i :: 0 <= i < |steps| ==> !Restarts(steps[i])
    ensures |After(sys, steps).disk.nodes| == |sys.doc.nodes|
    ensures PhaseChanges(sys, steps) + Work(After(sys, steps).disk.nodes) <= 3 * |sys.doc.nodes| + (|sys.doc.nodes| + 1) * Revivals(sys, steps)
  {
    hide Inv, Apply, Work, AllMoved, AllTurned, SamePhases, Starters, Revives;
    if steps == [] {
      InitialWork(sys, |sys.doc.nodes|);
      assert Initial(sys).disk.nodes[..|sys.doc.nodes|] == Initial(sys).disk.nodes;
    } else {
      var n := |steps| - 1;
      var before, s, t := steps[..n], After(sys, steps[..n]), After(sys, steps);
      PhaseChangesAreBounded(sys, before);
      ReachedInv(sys, before);
      ReachedInv(sys, steps);
      InvFits(sys, t);
      if Revives(s, steps[n]) {
        RevivingTurns(sys, s, steps[n]);
        WorkRises(s.disk.nodes, t.disk.nodes);
      } else {
        StepMoves(sys, s, steps[n]);
        WorkFalls(s.disk.nodes, t.disk.nodes, Starters(sys, s, steps[n]));
      }
    }
  }

  lemma InvFits(sys: System, s: State)
    requires Inv(sys, s)
    ensures |s.disk.nodes| == |sys.doc.nodes|
  {
  }

  lemma RevivingTurns(sys: System, s: State, step: Step)
    requires Inv(sys, s) && Revives(s, step)
    ensures AllTurned(s.disk.nodes, Apply(sys, s, step).disk.nodes)
  {
    hide Inv, DoApplyCancel, Moves, Revived;
    ApplyCancelTurns(sys, s, step.writes);
  }

  // ----- what revives -----

  /** While no recovery has ended, the targets of a cancellation are active. */
  ghost predicate Untroubled(s: State)
  {
    s.canceller.Polling? ==> forall k :: k in s.canceller.targets ==> k.node < |s.disk.nodes| && Active(s.disk.nodes[k.node])
  }

  lemma StaysUntroubled(sys: System, s: State, step: Step)
    requires Inv(sys, s) && Untroubled(s) && !step.RecoverEnd?
    ensures Untroubled(Apply(sys, s, step)) && !Revives(s, step)
  {
    var t := Apply(sys, s, step);
    if step.MarkCancel? {
      MarkedActive(sys, s, step.writes);
    } else if t.canceller.Polling? {
      SameTargets(sys, s, step);
      PolledNodes(sys, s, step);
    }
    hide Inv, Apply;
  }

  lemma MarkedActive(sys: System, s: State, writes: nat)
    requires Inv(sys, s) && Untroubled(s)
    ensures Untroubled(DoMarkCancel(s, writes))
  {
    hide DiskOk, FlightsOk, ObservingOk, RecoverOk, Targets, ActiveKeys;
    ActiveKeysExactly(s.disk.nodes);
    TargetsExactly(DoMarkCancel(s, writes).disk, ActiveKeys(s.disk.nodes));
  }

  /** While a cancellation is polled, only recovery writes nodes. */
  lemma PolledNodes(sys: System, s: State, step: Step)
    requires Inv(sys, s) && !step.RecoverEnd? && s.canceller.Polling? && Apply(sys, s, step).canceller.Polling?
    ensures Apply(sys, s, step).disk.nodes == s.disk.nodes
  {
    assert s.disk.run.cancelRequested && !Mutable(s);
    hide Inv;
    if step.Schedule? {
      ScheduleCanceller(sys, s, step.limit, step.writes);
      ScheduleStep(sys, s, step.limit, step.writes);
    } else if !WritesNodes(step) {
      hide Apply;
      PlainMoves(sys, s, step);
    } else {
      PolledWriters(sys, s, step);
    }
  }

  lemma PolledWriters(sys: System, s: State, step: Step)
    requires s.disk.run.cancelRequested && s.canceller.Polling? && Apply(sys, s, step).canceller.Polling?
    requires step.Settle? || step.Resolve? || step.Act? || step.ApplyCancel?
    ensures Apply(sys, s, step).disk.nodes == s.disk.nodes
  {
    hide Perform, Applies, Joined, EditFor, Takes, Repeats, ActWrites, AllApply, CancelWrites, LeftAtWork;
  }

  /** So nothing is revived as long as no recovery has come to its end, and the bound above
      is three steps for each node. */
  lemma {:induction false} OnlyRecoveryRevives(sys: System, steps: seq<Step>)
    requires Ordered(sys.doc) && forall i :: 0 <= i < |steps| ==> !steps[i].RecoverEnd?
    ensures Revivals(sys, steps) == 0 && Untroubled(After(sys, steps))
  {
    hide Inv, Apply, Revives, Untroubled;
    if steps == [] {
      InitialUntroubled(sys);
    } else {
      var n := |steps| - 1;
      assert forall i :: 0 <= i < n ==> steps[..n][i] == steps[i];
      OnlyRecoveryRevives(sys, steps[..n]);
      ReachedInv(sys, steps[..n]);
      StaysUntroubled(sys, After(sys, steps[..n]), steps[n]);
    }
  }

  lemma InitialUntroubled(sys: System)
    ensures Untroubled(Initial(sys))
  {
  }
}
