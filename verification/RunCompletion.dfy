/** When a completed run is really done: exactly when no action has stopped part-way and no
    cancellation has completed it with a node still at work. */
module RunCompletion {
  import opened Workflow
  import opened Scheduler
  import opened Topology
  import opened RunMachine
  import opened RunInvariant
  import opened RunSteps
  import opened RunGuarantees
  import opened RunProgress

  /** An action is part-way only while nothing holds the run; a completed run's nodes are
      done, about to start over or left active, and all are done unless an action is
      part-way or a node was left. */
  ghost predicate CompletionOk(s: State)
  {
    && (s.torn ==> s.stage == Off && s.canceller == NoCancel)
    && (s.stage != Off && !s.stage.Recovering? && s.disk.run.phase != RunCompleted ==> !s.abandoned)
    && (s.disk.run.phase == RunCompleted ==>
          && (forall i :: 0 <= i < |s.disk.nodes| ==> Done(s.disk.nodes[i]) || Unstarted(s.disk.nodes[i]) || Active(s.disk.nodes[i]))
          && (AllDone(s.disk.nodes) <==> !s.torn && !s.abandoned))
  }

  /** Whether a step that records a cancellation finds an active node that it does not settle. */
  ghost predicate Abandons(s: State, step: Step)
  {
    || (step.ApplyCancel? && s.canceller.Polling? && LeftAtWork(s.disk.nodes, s.canceller.targets))
    || (step.RecoverEnd? && s.stage.Recovering? && s.stage.progress.Ending? && LeftAtWork(s.disk.nodes, KeysOf(s.stage.progress.first)))
  }

  // ----- the steps -----

  lemma ControlOpen(sys: System, s: State, step: Step)
    requires CompletionOk(s)
    requires step.StartControl? || step.StopControl? || step.FailControl? || step.BeginReconcile? || step.Observe? || step.EndReconcile?
          || step.EndLaunch?
    ensures CompletionOk(Apply(sys, s, step))
  {
    hide Mutable, Joined, AllDone, ActiveKeys;
  }

  lemma LaunchOpen(sys: System, s: State, step: Step)
    requires CompletionOk(s)
    requires step.Begin? || step.LoseDriver? || step.CallStart? || step.Land? || step.Crash?
    ensures CompletionOk(Apply(sys, s, step))
  {
    hide AllDone;
  }

  lemma CancellerOpen(sys: System, s: State, step: Step)
    requires CompletionOk(s)
    requires step.MarkCancel? || step.GiveUp? || step.CancelBackend? || step.PollTarget?
    ensures CompletionOk(Apply(sys, s, step))
  {
    hide AllDone, Targets, ActiveKeys;
  }

  lemma SettleOpen(sys: System, s: State, writes: nat)
    requires Inv(sys, s) && CompletionOk(s)
    ensures CompletionOk(DoSettle(sys, s, writes))
  {
    hide DiskOk, FlightsOk, Perform, Legal, AllDone;
    if s.stage.Observing? && s.stage.settled < |s.stage.refs| && AllObserved(s.stage) && Mutable(s) {
      var k := s.stage.refs[s.stage.settled];
      var e := EditFor(k, s.stage.verdicts[k]);
      if e.Some? {
        SettleLegal(sys, s);
        EditKeeps(sys.doc, Fresh(s, writes), s.past, e.value);
        FramedOpen(s.disk, DoSettle(sys, s, writes).disk, NodeOf(e.value));
      }
    }
  }

  lemma FramedOpen(d: Disk, e: Disk, i: NodeId)
    requires Framed(d, e, i) && d.run.phase != RunCompleted
    ensures e.run.phase != RunCompleted
  {
  }

  lemma ResolveOpen(sys: System, s: State, k: Key, writes: nat)
    requires Inv(sys, s) && CompletionOk(s)
    ensures CompletionOk(DoResolve(sys, s, k, writes))
  {
    hide DiskOk, Perform, AllDone;
    if s.stage == Launching && k in s.flights && Joined(s) && Mutable(s) {
      assert FlightOk(s, k);
      var edit := if s.flights[k].handle then Hold(k, CompletionMissing, None) else Lose(k);
      assert Legal(s.disk, s.past.gone, edit);
      if Applies(sys.doc, s.disk, edit) && !(s.flights[k].handle && !s.flights[k].failed) {
        EditKeeps(sys.doc, Fresh(s, writes), s.past, edit);
        FramedOpen(s.disk, DoResolve(sys, s, k, writes).disk, NodeOf(edit));
      }
    }
  }

  lemma ApplyCancelOpen(sys: System, s: State, writes: nat)
    requires Inv(sys, s) && CompletionOk(s)
    ensures CompletionOk(DoApplyCancel(sys, s, writes))
  {
    hide DiskOk, FlightsOk, CancelWrites, AllApply, CancelOk, ObservingOk, RecoverOk, LeftAtWork;
    if s.canceller.Polling? && AllAnswered(s.canceller) && AllApply(sys.doc, s.disk, CancelEdits(s.canceller)) && s.disk.run.phase != RunCompleted {
      CompletesWhole(sys, s, writes);
      CancelWritesKeep(sys, s, writes);
    }
  }

  lemma RecoveryOpen(sys: System, s: State, step: Step)
    requires CompletionOk(s)
    requires step.StartRecovery? || step.RecoverMark? || step.RecoverLook? || step.RecoverGiveUp? || step.RecoverAsk?
    ensures CompletionOk(Apply(sys, s, step))
  {
    hide AllDone, Picked;
  }

  /** Recovery completes the run exactly when no write is lost; then every node is done but
      the active ones that it did not settle. */
  lemma RecoverEndOpen(sys: System, s: State, writes: nat)
    requires Inv(sys, s) && CompletionOk(s)
    ensures CompletionOk(DoRecoverEnd(sys, s, writes))
  {
    hide DiskOk, FlightsOk, RecoveryWrites, CancelOk, ObservingOk, Quiet;
    if s.stage.Recovering? && s.stage.progress.Ending? && s.disk.run.phase != RunCompleted {
      var first := s.stage.progress.first;
      RecoveryWritesKeep(sys, s, first, writes);
      var p := RecoveryWrites(sys, s, first, writes);
      if p.ok && AllDone(p.disk.nodes) {
        forall i | 0 <= i < |s.disk.nodes| ensures !(Active(s.disk.nodes[i]) && Key(i, s.disk.nodes[i].attempt) !in KeysOf(first)) {
          assert Done(p.disk.nodes[i]);
        }
      }
    }
  }

  /** A batch completes the run only through aggregation, and then all nodes are done. */
  lemma ScheduleOpen(sys: System, s: State, limit: nat, writes: nat)
    requires Inv(sys, s) && CompletionOk(s)
    ensures CompletionOk(DoSchedule(sys, s, limit, writes))
  {
    hide DiskOk, FlightsOk, CancelOk, ObservingOk, Plan, PerformAll, Aggregate, AllApply, EditsOf, AllDone;
    DiskNodes(sys.doc, s.disk, s.past);
    if s.stage == Idle && Mutable(s) {
      var plan := Plan(sys.doc, s.disk.run.conclusion, s.disk.nodes, limit);
      if plan.Ok? && AllApply(sys.doc, s.disk, EditsOf(plan.value)) {
        BatchKeeps(sys, s, limit, writes);
        var d := PerformAll(sys.doc, Fresh(s, writes), EditsOf(plan.value)).disk;
        BatchOpen(s.disk, d, EditsOf(plan.value));
        AggregateDone(sys.doc, d, s.past);
      }
    }
  }

  lemma BatchOpen(d: Disk, e: Disk, es: seq<Edit>)
    requires FramedAll(d, e, es) && d.run.phase != RunCompleted
    ensures e.run.phase != RunCompleted
  {
  }

  lemma AggregateDone(doc: Document, d: Disk, past: Past)
    requires DiskOk(doc, d, past)
    ensures Aggregate(d.run, doc, d.nodes).0.phase == RunCompleted ==> AllDone(d.nodes)
    ensures AllDone(d.nodes) ==> forall i :: 0 <= i < |d.nodes| ==> Done(d.nodes[i])
  {
    hide Aggregate;
    CompletedWhenDone(d.run, doc, d.nodes);
    forall i | 0 <= i < |d.nodes| ensures d.nodes[i].kind == Approval ==> d.nodes[i].phase != Running { assert NodeSound(d.nodes[i]); }
  }

  /** Cut short on a completed run, an action leaves its target about to start over. */
  lemma ActOpen(sys: System, s: State, action: Action, writes: nat)
    requires Inv(sys, s) && CompletionOk(s)
    ensures CompletionOk(DoAct(sys, s, action, writes))
  {
    hide Repeats;
    if !AllowedAgain(s, action) && Allowed(s, action) {
      ActWritesNodes(sys.doc, Fresh(s, writes), action);
      hide ActWrites, DiskOk;
      var t := DoAct(sys, s, action, writes);
      forall j | 0 <= j < |t.disk.nodes| && s.disk.run.phase == RunCompleted
        ensures Done(t.disk.nodes[j]) || Unstarted(t.disk.nodes[j]) || Active(t.disk.nodes[j])
      {
        assert Done(s.disk.nodes[j]) || Unstarted(s.disk.nodes[j]) || Active(s.disk.nodes[j]);
        ResetNode(s.disk.nodes, sys.doc, action.i, j);
      }
      if t.torn && writes > 0 && s.disk.run.phase == RunCompleted {
        assert Done(s.disk.nodes[action.i]) || Unstarted(s.disk.nodes[action.i]) || Active(s.disk.nodes[action.i]);
        assert Unstarted(t.disk.nodes[action.i]);
      }
    }
  }

  // ----- every reachable state -----

  lemma StepKeepsCompletion(sys: System, s: State, step: Step)
    requires Inv(sys, s) && CompletionOk(s)
    ensures CompletionOk(Apply(sys, s, step))
  {
    hide Inv, CompletionOk;
    match step
    case Settle(writes) => SettleOpen(sys, s, writes);
    case Schedule(limit, writes) => ScheduleOpen(sys, s, limit, writes);
    case Resolve(k, writes) => ResolveOpen(sys, s, k, writes);
    case ApplyCancel(writes) => ApplyCancelOpen(sys, s, writes);
    case RecoverEnd(writes) => RecoverEndOpen(sys, s, writes);
    case StartRecovery(_) => RecoveryOpen(sys, s, step);
    case RecoverMark(_) => RecoveryOpen(sys, s, step);
    case RecoverLook(_) => RecoveryOpen(sys, s, step);
    case RecoverGiveUp => RecoveryOpen(sys, s, step);
    case RecoverAsk(_) => RecoveryOpen(sys, s, step);
    case Act(action, writes) => ActOpen(sys, s, action, writes);
    case MarkCancel(_) => CancellerOpen(sys, s, step);
    case GiveUp(_) => CancellerOpen(sys, s, step);
    case CancelBackend(_, _) => CancellerOpen(sys, s, step);
    case PollTarget(_, _) => CancellerOpen(sys, s, step);
    case Begin(_, _) => LaunchOpen(sys, s, step);
    case LoseDriver(_) => LaunchOpen(sys, s, step);
    case CallStart(_, _, _) => LaunchOpen(sys, s, step);
    case Land(_, _) => LaunchOpen(sys, s, step);
    case Crash => LaunchOpen(sys, s, step);
    case _ => ControlOpen(sys, s, step);
  }

  lemma {:induction false} ReachedCompletion(sys: System, steps: seq<Step>)
    requires Ordered(sys.doc)
    ensures CompletionOk(After(sys, steps))
  {
    hide Apply, Inv;
    if steps != [] {
      var n := |steps| - 1;
      ReachedCompletion(sys, steps[..n]);
      ReachedInv(sys, steps[..n]);
      hide CompletionOk;
      StepKeepsCompletion(sys, After(sys, steps[..n]), steps[n]);
    }
  }

  /** In every reachable state a completed run has no work left exactly when no action has
      stopped between its first node and the run's file, and the cancellation that
      completed it, if one did, found no active node that it did not settle. */
  lemma CompletedMeansDone(sys: System, steps: seq<Step>)
    requires Ordered(sys.doc)
    ensures After(sys, steps).disk.run.phase == RunCompleted ==>
              (AllDone(After(sys, steps).disk.nodes) <==> !After(sys, steps).torn && !After(sys, steps).abandoned)
    ensures (forall i :: 0 <= i < |steps| && steps[i].Act? ==> steps[i].writes > |sys.doc.nodes| + 1) ==> !After(sys, steps).torn
    ensures (forall n :: 0 <= n < |steps| ==> !Abandons(After(sys, steps[..n]), steps[n])) ==> !After(sys, steps).abandoned
    ensures forall n :: n in After(sys, steps).disk.nodes && n.kind == Approval ==> n.phase != Running
  {
    hide FlightsOk, ObservingOk, CancelOk, RecoverOk, Abandons;
    ReachedInv(sys, steps);
    ReachedCompletion(sys, steps);
    var s := After(sys, steps);
    if forall i :: 0 <= i < |steps| && steps[i].Act? ==> steps[i].writes > |sys.doc.nodes| + 1 { WholeActions(sys, steps); }
    if forall n :: 0 <= n < |steps| ==> !Abandons(After(sys, steps[..n]), steps[n]) { NoneAbandoned(sys, steps); }
    forall n | n in s.disk.nodes && n.kind == Approval ensures n.phase != Running {
      var i :| 0 <= i < |s.disk.nodes| && s.disk.nodes[i] == n;
      assert NodeSound(s.disk.nodes[i]);
    }
  }

  /** A node is left behind only by a step that finds it active and does not settle it. */
  lemma {:induction false} NoneAbandoned(sys: System, steps: seq<Step>)
    requires forall n :: 0 <= n < |steps| ==> !Abandons(After(sys, steps[..n]), steps[n])
    ensures !After(sys, steps).abandoned
  {
    hide Apply, Abandons;
    if steps != [] {
      var n := |steps| - 1;
      forall m | 0 <= m < n ensures !Abandons(After(sys, steps[..n][..m]), steps[..n][m]) {
        assert steps[..n][..m] == steps[..m];
      }
      NoneAbandoned(sys, steps[..n]);
      AbandonsOnly(sys, After(sys, steps[..n]), steps[n]);
    }
  }

  lemma AbandonsOnly(sys: System, s: State, step: Step)
    requires !s.abandoned && !Abandons(s, step)
    ensures !Apply(sys, s, step).abandoned
  {
    hide LeftAtWork, Perform, PerformAll, AllApply, Applies, Plan, CancelWrites, RecoveryWrites, Targets, ActiveKeys, Mutable, EditFor, Aggregate,
      Joined, AllAnswered, EditsOf, NewFlights, ActWrites, Takes, Repeats, Picked, MarkRun;
  }

  /** Actions that are not cut leave none part-way. */
  lemma {:induction false} WholeActions(sys: System, steps: seq<Step>)
    requires Ordered(sys.doc) && forall i :: 0 <= i < |steps| && steps[i].Act? ==> steps[i].writes > |sys.doc.nodes| + 1
    ensures !After(sys, steps).torn
  {
    hide Inv;
    if steps != [] {
      var n := |steps| - 1;
      assert forall i :: 0 <= i < n ==> steps[..n][i] == steps[i];
      WholeActions(sys, steps[..n]);
      ReachedInv(sys, steps[..n]);
      WholeStep(sys, After(sys, steps[..n]), steps[n]);
    }
  }

  lemma WholeStep(sys: System, s: State, step: Step)
    requires Inv(sys, s) && !s.torn && (step.Act? ==> step.writes > |sys.doc.nodes| + 1)
    ensures !Apply(sys, s, step).torn
  {
    if step.Act? {
      DiskNodes(sys.doc, s.disk, s.past);
      if Allowed(s, step.action) && !AllowedAgain(s, step.action) { EnoughWrites(sys.doc, Fresh(s, step.writes), step.action); }
    }
    hide Inv, ActWrites, Apply;
    if !step.Act? { OnlyActsTear(sys, s, step); } else { WholeAct(sys, s, step); }
  }

  lemma WholeAct(sys: System, s: State, step: Step)
    requires step.Act? && !s.torn
    requires Allowed(s, step.action) && !AllowedAgain(s, step.action) && Fits(sys.doc, s.disk.nodes) ==>
               var p := ActWrites(sys.doc, Fresh(s, step.writes), step.action); p.ok && p.left > 0
    ensures !Apply(sys, s, step).torn
  {
  }

  lemma OnlyActsTear(sys: System, s: State, step: Step)
    requires !step.Act? && !s.torn
    ensures !Apply(sys, s, step).torn
  {
    hide Perform, PerformAll, AllApply, Applies, Plan, CancelWrites, RecoveryWrites, Targets, ActiveKeys, Mutable, EditFor, Aggregate, Joined,
      AllAnswered, EditsOf, NewFlights, Picked, MarkRun, LeftAtWork;
  }

  lemma EnoughWrites(doc: Document, p: Progress, action: Action)
    requires Fits(doc, p.disk.nodes) && Takes(p.disk.nodes, action) && p.ok && p.left > |doc.nodes| + 1
    ensures ActWrites(doc, p, action).ok && ActWrites(doc, p, action).left > 0
  {
    if !action.Decide? {
      var q := WriteNode(p, action.i, Target(p.disk.nodes[action.i], action));
      ResetsFit(doc, q, action.i, |p.disk.nodes|);
    }
  }

  lemma {:induction false} ResetsFit(doc: Document, p: Progress, i: NodeId, n: nat)
    requires Fits(doc, p.disk.nodes) && n <= |p.disk.nodes| && p.ok && p.left > n
    ensures ResetWrites(doc, p, i, n).ok && ResetWrites(doc, p, i, n).left >= p.left - n
  {
    if n > 0 { ResetsFit(doc, p, i, n - 1); }
  }
}
