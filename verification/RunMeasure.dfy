/** When the run gets on: exactly which steps lower the work that is left, and the one thing
    that can stop a batch from ever lowering it. */
module RunMeasure {
  import opened Workflow
  import opened Scheduler
  import opened Topology
  import opened RunMachine
  import opened RunInvariant
  import opened RunSteps
  import opened RunGuarantees
  import opened RunProgress

  /** A file of an attempt that its node has not taken up: a fault or a crash fell between
      the attempt's file and its node. */
  predicate LeftFile(d: Disk, i: NodeId)
  {
    i < |d.nodes| && Key(i, d.nodes[i].attempt + 1) in d.attempts
  }

  /** Whether a decision's edit reaches its node: an assignment must create its attempt's
      file first, which fails if the file is there. */
  predicate Reaches(d: Disk, e: Edit, writes: nat)
  {
    if e.Assign? then writes >= 2 && !LeftFile(d, e.i) else writes >= 1
  }

  // ----- batches -----

  lemma FirstEdit(doc: Document, p: Progress, past: Past, e: Edit)
    requires p.ok && Applies(doc, p.disk, e) && Legal(p.disk, past.gone, e) && (e.Drop? || e.Ask? || e.Assign?)
    ensures var q := Perform(doc, p, e);
            if Reaches(p.disk, e, p.left) then q.disk.nodes[NodeOf(e)].phase != p.disk.nodes[NodeOf(e)].phase
            else q.disk.nodes == p.disk.nodes && !q.ok
  {
  }

  lemma FirstOfAll(doc: Document, p: Progress, past: Past, es: seq<Edit>)
    requires DiskOk(doc, p.disk, past) && p.disk.run.phase != RunCompleted && p.ok && es != []
    requires AllApply(doc, p.disk, es) && AllLegal(p.disk, past.gone, es) && Apart(es) && (es[0].Drop? || es[0].Ask? || es[0].Assign?)
    ensures var q, i := PerformAll(doc, p, es), NodeOf(es[0]);
            if Reaches(p.disk, es[0], p.left) then q.disk.nodes[i].phase != p.disk.nodes[i].phase else q.disk.nodes == p.disk.nodes
  {
    hide DiskOk, Perform, Legal;
    var p1, rest := Perform(doc, p, es[0]), es[1..];
    EditKeeps(doc, p, past, es[0]);
    RestLegal(doc, p, past, es);
    FirstEdit(doc, p, past, es[0]);
    EditsKeep(doc, p1, past, rest);
    assert forall i :: 0 <= i < |rest| ==> rest[i] == es[i + 1];
    assert !Touched(rest, NodeOf(es[0]));
    if !p1.ok { FaultsStay(doc, p1, rest); }
  }

  lemma DecisionsEdit(d: Decision)
    ensures forall i :: 0 <= i < |EditsOf(d)| ==> EditsOf(d)[i].Drop? || EditsOf(d)[i].Ask? || EditsOf(d)[i].Assign?
    ensures EditsOf(d) == [] <==> Empty(d)
  {
  }

  /** A batch with something to do lowers the work that is left exactly when its first edit
      reaches its node. */
  lemma BatchProgresses(sys: System, s: State, limit: nat, writes: nat)
    requires Inv(sys, s) && s.stage == Idle && Mutable(s)
    requires var plan := Plan(sys.doc, s.disk.run.conclusion, s.disk.nodes, limit); plan.Ok? && !Empty(plan.value)
    ensures
      var es := EditsOf(Plan(sys.doc, s.disk.run.conclusion, s.disk.nodes, limit).value);
      es != [] && (Work(DoSchedule(sys, s, limit, writes).disk.nodes) < Work(s.disk.nodes) <==> Reaches(s.disk, es[0], writes))
  {
    hide DiskOk, FlightsOk, CancelOk, ObservingOk, Plan, PerformAll, Aggregate, EditsOf, Moves, Work, Empty, Reaches;
    DiskNodes(sys.doc, s.disk, s.past);
    var plan := Plan(sys.doc, s.disk.run.conclusion, s.disk.nodes, limit).value;
    var es := EditsOf(plan);
    DecisionsEdit(plan);
    DecisionLegal(sys, s.disk, limit, s.past.gone);
    FirstOfAll(sys.doc, Fresh(s, writes), s.past, es);
    var t := DoSchedule(sys, s, limit, writes);
    assert t.disk.nodes == PerformAll(sys.doc, Fresh(s, writes), es).disk.nodes;
    ScheduleMoves(sys, s, limit, writes);
    hide Starters;
    WorkFalls(s.disk.nodes, t.disk.nodes, Starters(sys, s, Schedule(limit, writes)));
  }

  /** With work left, nothing running or waiting and two writes to go, a batch that can be
      planned lowers the work exactly when no left file stands where its first assignment
      goes; a batch that skips or asks first always does. */
  lemma ScheduleProgresses(sys: System, s: State, limit: nat, writes: nat)
    requires Inv(sys, s) && s.stage == Idle && Mutable(s) && writes >= 2
    requires Plan(sys.doc, s.disk.run.conclusion, s.disk.nodes, limit).Ok?
    requires forall i :: 0 <= i < |s.disk.nodes| ==> s.disk.nodes[i].phase != Running && s.disk.nodes[i].phase != Waiting
    requires exists i :: 0 <= i < |s.disk.nodes| && Unstarted(s.disk.nodes[i])
    ensures
      var es := EditsOf(Plan(sys.doc, s.disk.run.conclusion, s.disk.nodes, limit).value);
      es != [] && (Work(DoSchedule(sys, s, limit, writes).disk.nodes) < Work(s.disk.nodes) <==> !(es[0].Assign? && LeftFile(s.disk, es[0].i)))
  {
    hide Plan, EditsOf, Work, Empty, Inv, DoSchedule, Mutable;
    assert NodesOk(sys.doc, s.disk.nodes) by { InvNodes(sys, s); }
    NeverStalls(sys.doc, s.disk.run.conclusion, s.disk.nodes, limit);
    BatchProgresses(sys, s, limit, writes);
  }

  lemma InvNodes(sys: System, s: State)
    requires Inv(sys, s)
    ensures NodesOk(sys.doc, s.disk.nodes)
  {
  }

  // ----- outcomes -----

  /** Whether an outcome's edit moves its node on. */
  predicate MovesOn(d: Disk, e: Edit, writes: nat)
    requires OnAttempt(e) && NodeOf(e) < |d.nodes|
  {
    match e
    case Finish(_, _, _) => writes >= 1
    case Lose(_) => writes >= 2
    case Hold(k, _, _) => writes >= 1 && d.nodes[k.node].phase == Running
    case _ => false
  }

  lemma OutcomeEdit(doc: Document, p: Progress, past: Past, e: Edit)
    requires p.ok && Applies(doc, p.disk, e) && Legal(p.disk, past.gone, e) && (e.Finish? || e.Lose? || e.Hold?)
    ensures var q := Perform(doc, p, e);
            (q.disk.nodes[NodeOf(e)].phase != p.disk.nodes[NodeOf(e)].phase <==> MovesOn(p.disk, e, p.left))
            && forall j :: 0 <= j < |p.disk.nodes| && j != NodeOf(e) ==> q.disk.nodes[j] == p.disk.nodes[j]
  {
  }

  /** Settling an observation lowers the work exactly when it is not of a live or settled
      attempt, its node's write succeeds, and it is not a wait that had begun already. */
  lemma SettleProgresses(sys: System, s: State, writes: nat)
    requires Inv(sys, s) && s.stage.Observing? && s.stage.settled < |s.stage.refs| && AllObserved(s.stage) && Mutable(s)
    ensures
      var e := EditFor(s.stage.refs[s.stage.settled], s.stage.verdicts[s.stage.refs[s.stage.settled]]);
      Work(DoSettle(sys, s, writes).disk.nodes) < Work(s.disk.nodes) <==>
        e.Some? && OnAttempt(e.value) && NodeOf(e.value) < |s.disk.nodes| && MovesOn(s.disk, e.value, writes)
  {
    hide DiskOk, FlightsOk, CancelOk, Perform, Legal, Work, Moves, MovesOn;
    var k := s.stage.refs[s.stage.settled];
    var e, t := EditFor(k, s.stage.verdicts[k]), DoSettle(sys, s, writes);
    SettleMoves(sys, s, writes);
    WorkFalls(s.disk.nodes, t.disk.nodes, {});
    if e.Some? {
      SettleLegal(sys, s);
      OutcomeEdit(sys.doc, Fresh(s, writes), s.past, e.value);
      SamePhasesSameWork(s.disk.nodes, t.disk.nodes);
    }
  }

  lemma {:induction false} SamePhasesSameWork(a: seq<Node>, b: seq<Node>)
    requires |a| == |b|
    ensures SamePhases(a, b) ==> Work(a) == Work(b)
  {
    if a != [] && SamePhases(a, b) {
      var n := |a| - 1;
      assert forall i :: 0 <= i < n ==> a[i].phase == a[..n][i].phase && b[i].phase == b[..n][i].phase;
      SamePhasesSameWork(a[..n], b[..n]);
    }
  }

  /** Recording a launch that failed lowers the work exactly when its node's write succeeds
      and the node was still running. */
  lemma ResolveProgresses(sys: System, s: State, k: Key, writes: nat)
    requires Inv(sys, s) && s.stage == Launching && k in s.flights && Joined(s) && Mutable(s)
    requires !(s.flights[k].handle && !s.flights[k].failed)
    ensures
      k.node < |s.disk.nodes| && var e := if s.flights[k].handle then Hold(k, CompletionMissing, None) else Lose(k);
      Work(DoResolve(sys, s, k, writes).disk.nodes) < Work(s.disk.nodes) <==> MovesOn(s.disk, e, writes)
  {
    hide DiskOk, Perform, Work, Moves, MovesOn;
    assert FlightOk(s, k);
    var e, t := if s.flights[k].handle then Hold(k, CompletionMissing, None) else Lose(k), DoResolve(sys, s, k, writes);
    assert Legal(s.disk, s.past.gone, e);
    ResolveMoves(sys, s, k, writes);
    WorkFalls(s.disk.nodes, t.disk.nodes, {});
    DiskNodes(sys.doc, s.disk, s.past);
    OutcomeEdit(sys.doc, Fresh(s, writes), s.past, e);
    SamePhasesSameWork(s.disk.nodes, t.disk.nodes);
  }

  // ----- a file that is left -----

  lemma EditAttempt(doc: Document, p: Progress, past: Past, e: Edit, j: NodeId)
    requires Applies(doc, p.disk, e) && Legal(p.disk, past.gone, e) && j < |p.disk.nodes| && LeftFile(p.disk, j)
    ensures var q := Perform(doc, p, e).disk; q.nodes[j].attempt == p.disk.nodes[j].attempt && LeftFile(q, j)
  {
  }

  lemma {:induction false} EditsAttempt(doc: Document, p: Progress, past: Past, es: seq<Edit>, j: NodeId)
    requires DiskOk(doc, p.disk, past) && p.disk.run.phase != RunCompleted && j < |p.disk.nodes| && LeftFile(p.disk, j)
    requires AllApply(doc, p.disk, es) && AllLegal(p.disk, past.gone, es) && Apart(es)
    ensures var q := PerformAll(doc, p, es).disk; q.nodes[j].attempt == p.disk.nodes[j].attempt && LeftFile(q, j)
    decreases |es|
  {
    hide DiskOk, Perform, Legal, LeftFile;
    if es != [] {
      EditKeeps(doc, p, past, es[0]);
      RestLegal(doc, p, past, es);
      EditAttempt(doc, p, past, es[0], j);
      EditsAttempt(doc, Perform(doc, p, es[0]), past, es[1..], j);
    }
  }

  lemma ScheduleLeavesFile(sys: System, s: State, limit: nat, writes: nat, i: NodeId)
    requires Inv(sys, s) && LeftFile(s.disk, i)
    ensures var t := DoSchedule(sys, s, limit, writes); |t.disk.nodes| == |s.disk.nodes| && t.disk.nodes[i].attempt == s.disk.nodes[i].attempt && LeftFile(t.disk, i)
  {
    hide DiskOk, FlightsOk, CancelOk, ObservingOk, Plan, PerformAll, Aggregate, EditsOf, AllApply;
    DiskNodes(sys.doc, s.disk, s.past);
    if s.stage == Idle && Mutable(s) {
      var plan := Plan(sys.doc, s.disk.run.conclusion, s.disk.nodes, limit);
      if plan.Ok? {
        DecisionLegal(sys, s.disk, limit, s.past.gone);
        EditsAttempt(sys.doc, Fresh(s, writes), s.past, EditsOf(plan.value), i);
      }
    }
  }

  lemma ActLeavesFile(sys: System, s: State, action: Action, writes: nat, i: NodeId)
    requires LeftFile(s.disk, i)
    ensures var t := DoAct(sys, s, action, writes); |t.disk.nodes| == |s.disk.nodes| && t.disk.nodes[i].attempt == s.disk.nodes[i].attempt && LeftFile(t.disk, i)
  {
    if !AllowedAgain(s, action) && Allowed(s, action) && Fits(sys.doc, s.disk.nodes) { ActWritesNodes(sys.doc, Fresh(s, writes), action); }
    hide ActWrites, Takes, Repeats;
  }

  lemma ApplyLeavesFile(sys: System, s: State, writes: nat, i: NodeId)
    requires Inv(sys, s) && LeftFile(s.disk, i)
    ensures var t := DoApplyCancel(sys, s, writes); |t.disk.nodes| == |s.disk.nodes| && t.disk.nodes[i].attempt == s.disk.nodes[i].attempt && LeftFile(t.disk, i)
  {
    hide Inv, CancelWrites, AllApply, LeftAtWork, LeftFile, AllAnswered, AllConfirmed;
    if s.canceller.Polling? && s.disk.run.phase != RunCompleted && AllApply(sys.doc, s.disk, CancelEdits(s.canceller)) {
      CancelWritesKeep(sys, s, writes);
      QuietLeavesFile(s.disk, CancelWrites(sys, s, writes).disk, i);
    }
  }

  lemma QuietLeavesFile(d: Disk, e: Disk, i: NodeId)
    requires Quiet(d, e) && LeftFile(d, i)
    ensures |e.nodes| == |d.nodes| && e.nodes[i].attempt == d.nodes[i].attempt && LeftFile(e, i)
  {
    hide InPlay;
    assert Key(i, d.nodes[i].attempt + 1) in d.attempts.Keys;
  }

  lemma StepLeavesFile(sys: System, s: State, step: Step, i: NodeId)
    requires Inv(sys, s) && LeftFile(s.disk, i)
    ensures var t := Apply(sys, s, step); |t.disk.nodes| == |s.disk.nodes| && t.disk.nodes[i].attempt == s.disk.nodes[i].attempt && LeftFile(t.disk, i)
  {
    hide Inv, LeftFile, DoStartControl, DoStopControl, DoFailControl, DoBeginReconcile, DoObserve, DoSettle, DoEndReconcile, DoSchedule, DoBegin,
      DoLoseDriver, DoCallStart, DoLand, DoResolve, DoEndLaunch, DoMarkCancel, DoPollTarget, DoGiveUp, DoCancelBackend, DoApplyCancel, DoAct, DoCrash,
      DoStartRecovery, DoRecoverMark, DoRecoverLook, DoRecoverGiveUp, DoRecoverAsk, DoRecoverEnd;
    match step
    case Schedule(limit, writes) => ScheduleLeavesFile(sys, s, limit, writes, i);
    case Act(action, writes) => ActLeavesFile(sys, s, action, writes, i);
    case ApplyCancel(writes) => ApplyLeavesFile(sys, s, writes, i);
    case _ => OtherLeavesFile(sys, s, step, i);
  }

  lemma OtherLeavesFile(sys: System, s: State, step: Step, i: NodeId)
    requires Inv(sys, s) && LeftFile(s.disk, i) && !step.Schedule? && !step.Act? && !step.ApplyCancel?
    ensures var t := Apply(sys, s, step); |t.disk.nodes| == |s.disk.nodes| && t.disk.nodes[i].attempt == s.disk.nodes[i].attempt && LeftFile(t.disk, i)
  {
    NeverRevives(s, step);
    hide Apply, Inv, Revives;
    StepFrame(sys, s, step);
    StepMoves(sys, s, step);
    MovedLeavesFile(s, Apply(sys, s, step), Starters(sys, s, step), i);
  }

  /** A node whose attempt does not rise keeps its left file. */
  lemma MovedLeavesFile(s: State, t: State, starts: set<NodeId>, i: NodeId)
    requires LeftFile(s.disk, i) && AllMoved(s.disk.nodes, t.disk.nodes, starts) && LaunchFrame(s, t) && starts == {}
    ensures |t.disk.nodes| == |s.disk.nodes| && t.disk.nodes[i].attempt == s.disk.nodes[i].attempt && LeftFile(t.disk, i)
  {
    assert Key(i, s.disk.nodes[i].attempt + 1) in s.disk.attempts.Keys;
  }

  /** A left file stays for good and no launcher ever holds it: whatever follows, retries
      and answers included, its node never gets past the attempt it is on, and the attempt
      in the file is never started. */
  lemma {:induction false} LeftFileIsFinal(sys: System, s: State, steps: seq<Step>, i: NodeId)
    requires Inv(sys, s) && LeftFile(s.disk, i)
    ensures
      var t := Reached(sys, s, steps);
      && |t.disk.nodes| == |s.disk.nodes| && LeftFile(t.disk, i) && t.disk.nodes[i].attempt == s.disk.nodes[i].attempt
      && Key(i, s.disk.nodes[i].attempt + 1) !in t.past.started
  {
    hide Inv, Apply;
    if steps == [] {
      LeftIsUnstarted(sys, s, i);
    } else {
      var n := |steps| - 1;
      LeftFileIsFinal(sys, s, steps[..n], i);
      LaterInv(sys, s, steps[..n]);
      StepLeavesFile(sys, Reached(sys, s, steps[..n]), steps[n], i);
      LaterInv(sys, s, steps);
      LeftIsUnstarted(sys, Reached(sys, s, steps), i);
    }
  }

  lemma LeftIsUnstarted(sys: System, s: State, i: NodeId)
    requires Inv(sys, s) && LeftFile(s.disk, i)
    ensures Key(i, s.disk.nodes[i].attempt + 1) !in s.past.started
  {
  }

  /** With a left file where a batch begins to assign, no batch of that plan ever gets on:
      it changes nothing on disk and ends the controller's round in failure. */
  lemma LeftFileStalls(sys: System, s: State, limit: nat, writes: nat)
    requires Inv(sys, s) && s.stage == Idle && Mutable(s)
    requires var plan := Plan(sys.doc, s.disk.run.conclusion, s.disk.nodes, limit); plan.Ok? && EditsOf(plan.value) != []
    requires var e := EditsOf(Plan(sys.doc, s.disk.run.conclusion, s.disk.nodes, limit).value)[0]; e.Assign? && LeftFile(s.disk, e.i)
    ensures var t := DoSchedule(sys, s, limit, writes); t.disk == s.disk && t.stage == Failing
  {
    hide DiskOk, FlightsOk, CancelOk, ObservingOk, Plan, PerformAll, EditsOf;
    DiskNodes(sys.doc, s.disk, s.past);
    DecisionLegal(sys, s.disk, limit, s.past.gone);
    var es := EditsOf(Plan(sys.doc, s.disk.run.conclusion, s.disk.nodes, limit).value);
    AssignFails(sys.doc, Fresh(s, writes), es);
  }

  lemma AssignFails(doc: Document, p: Progress, es: seq<Edit>)
    requires AllApply(doc, p.disk, es) && es != [] && es[0].Assign? && LeftFile(p.disk, es[0].i)
    ensures PerformAll(doc, p, es).disk == p.disk && !PerformAll(doc, p, es).ok
  {
    var p1 := Perform(doc, p, es[0]);
    assert p1.disk == p.disk && !p1.ok;
    assert forall i :: 0 <= i < |es| - 1 ==> es[1..][i] == es[i + 1];
    FaultsStay(doc, p1, es[1..]);
  }
}
