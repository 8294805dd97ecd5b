/** Runs in which no recovery comes to its end: there every attempt of an active node is
    dealt with, so nothing is revived and nothing is left behind. */
module RunUndisturbed {
  import opened Workflow
  import opened Scheduler
  import opened Topology
  import opened RunMachine
  import opened RunInvariant
  import opened RunSteps
  import opened RunGuarantees
  import opened RunProgress
  import opened RunCompletion
  import opened RunDependencies

  /** No active node is on an attempt that is cancelled already. */
  ghost predicate Clear(d: Disk)
  {
    forall k :: k in d.attempts && Current(d.nodes, k) && Active(d.nodes[k.node]) ==> !AlreadyCancelled(d.attempts[k])
  }

  /** An edit of the controller or the canceller, which refuses only active nodes. */
  ghost predicate Gentle(d: Disk, e: Edit)
  {
    !e.Conclude? && (e.Refuse? ==> NodeOf(e) < |d.nodes| && Active(d.nodes[NodeOf(e)]))
  }

  lemma EditClear(doc: Document, p: Progress, gone: set<Key>, e: Edit)
    requires Applies(doc, p.disk, e) && Legal(p.disk, gone, e) && Gentle(p.disk, e) && Clear(p.disk)
    ensures Clear(Perform(doc, p, e).disk)
  {
    hide Aggregate;
  }

  ghost predicate AllGentle(d: Disk, es: seq<Edit>) { forall i :: 0 <= i < |es| ==> Gentle(d, es[i]) }

  lemma RestGentle(doc: Document, p: Progress, past: Past, es: seq<Edit>)
    requires DiskOk(doc, p.disk, past) && p.disk.run.phase != RunCompleted && es != []
    requires AllApply(doc, p.disk, es) && AllLegal(p.disk, past.gone, es) && Apart(es) && AllGentle(p.disk, es)
    ensures AllGentle(Perform(doc, p, es[0]).disk, es[1..])
  {
    hide DiskOk, Perform, Legal;
    EditKeeps(doc, p, past, es[0]);
    forall i | 0 <= i < |es| - 1 ensures Gentle(Perform(doc, p, es[0]).disk, es[1..][i]) {
      assert es[1..][i] == es[i + 1] && Gentle(p.disk, es[i + 1]) && NodeOf(es[i + 1]) != NodeOf(es[0]);
    }
  }

  lemma {:induction false} EditsClear(doc: Document, p: Progress, past: Past, es: seq<Edit>)
    requires DiskOk(doc, p.disk, past) && p.disk.run.phase != RunCompleted && Clear(p.disk)
    requires AllApply(doc, p.disk, es) && AllLegal(p.disk, past.gone, es) && Apart(es) && AllGentle(p.disk, es)
    ensures Clear(PerformAll(doc, p, es).disk)
    decreases |es|
  {
    hide DiskOk, Perform, Legal, Clear, Gentle;
    if es != [] {
      EditKeeps(doc, p, past, es[0]);
      EditClear(doc, p, past.gone, es[0]);
      RestLegal(doc, p, past, es);
      RestGentle(doc, p, past, es);
      EditsClear(doc, Perform(doc, p, es[0]), past, es[1..]);
    }
  }

  // ----- the steps -----

  lemma SettleClear(sys: System, s: State, writes: nat)
    requires Inv(sys, s) && Clear(s.disk)
    ensures Clear(DoSettle(sys, s, writes).disk)
  {
    hide Perform, Clear, DiskOk, Legal;
    if s.stage.Observing? && s.stage.settled < |s.stage.refs| && AllObserved(s.stage) {
      var k := s.stage.refs[s.stage.settled];
      assert k in s.stage.refs;
      var e := EditFor(k, s.stage.verdicts[k]);
      if e.Some? && Mutable(s) {
        SettleLegal(sys, s);
        EditClear(sys.doc, Fresh(s, writes), s.past.gone, e.value);
      }
    }
  }

  /** A decision only drops, asks and assigns. */
  lemma DecisionGentle(d: Disk, plan: Decision)
    ensures AllGentle(d, EditsOf(plan))
  {
  }

  lemma RunClear(d: Disk, run: Run)
    requires Clear(d)
    ensures Clear(d.(run := run))
  {
  }

  lemma ScheduleClear(sys: System, s: State, limit: nat, writes: nat)
    requires Inv(sys, s) && Clear(s.disk)
    ensures Clear(DoSchedule(sys, s, limit, writes).disk)
  {
    hide DiskOk, Plan, PerformAll, Aggregate, AllApply, EditsOf, Clear, Mutable, AllLegal, Apart, AllGentle;
    if s.stage == Idle && Mutable(s) && Fits(sys.doc, s.disk.nodes) {
      var plan := Plan(sys.doc, s.disk.run.conclusion, s.disk.nodes, limit);
      if plan.Ok? && AllApply(sys.doc, s.disk, EditsOf(plan.value)) {
        DiskNodes(sys.doc, s.disk, s.past);
        DecisionLegal(sys, s.disk, limit, s.past.gone);
        DecisionGentle(s.disk, plan.value);
        MutableIsOpen(s);
        EditsClear(sys.doc, Fresh(s, writes), s.past, EditsOf(plan.value));
        var p := PerformAll(sys.doc, Fresh(s, writes), EditsOf(plan.value));
        RunClear(p.disk, Aggregate(p.disk.run, sys.doc, p.disk.nodes).0);
      }
    }
  }

  lemma MutableIsOpen(s: State)
    requires Mutable(s)
    ensures s.disk.run.phase != RunCompleted
  {
  }

  lemma ResolveClear(sys: System, s: State, k: Key, writes: nat)
    requires Inv(sys, s) && Clear(s.disk)
    ensures Clear(DoResolve(sys, s, k, writes).disk)
  {
    hide DiskOk, Perform, Clear;
    if s.stage == Launching && k in s.flights && Joined(s) && Mutable(s) && !(s.flights[k].handle && !s.flights[k].failed) {
      assert FlightOk(s, k);
      var edit := if s.flights[k].handle then Hold(k, CompletionMissing, None) else Lose(k);
      assert Legal(s.disk, s.past.gone, edit);
      if Applies(sys.doc, s.disk, edit) { EditClear(sys.doc, Fresh(s, writes), s.past.gone, edit); }
    }
  }

  lemma CancelGentle(sys: System, s: State)
    requires s.canceller.Polling? && Untroubled(s)
    ensures AllGentle(s.disk, CancelEdits(s.canceller))
  {
    var c := s.canceller;
    forall i | 0 <= i < |c.targets| ensures Gentle(s.disk, CancelEdits(c)[i]) { assert c.targets[i] in c.targets; }
  }

  lemma CancelWritesClear(sys: System, s: State, writes: nat)
    requires Inv(sys, s) && Clear(s.disk) && Untroubled(s) && s.canceller.Polling? && s.disk.run.phase != RunCompleted
    requires AllApply(sys.doc, s.disk, CancelEdits(s.canceller))
    ensures Clear(CancelWrites(sys, s, writes).disk)
  {
    hide DiskOk, FlightOk, PerformAll, Legal, AllApply, AllLegal, Apart, AllGentle, Leftovers, CancelEdits, Clear, AllConfirmed;
    var es := CancelEdits(s.canceller);
    var p := PerformAll(sys.doc, Fresh(s, writes), es);
    CancelEditsLegal(sys, s);
    CancelGentle(sys, s);
    EditsClear(sys.doc, Fresh(s, writes), s.past, es);
    CancelledOpen(sys, s, writes);
    DiskFits(sys.doc, p.disk, s.past);
    DropsLegal(sys.doc, p.disk, s.past.gone);
    var drops := Drops(Leftovers(p.disk.nodes), WorkflowCancelled);
    assert AllGentle(p.disk, drops) by { DropsGentle(p.disk, Leftovers(p.disk.nodes)); }
    EditsClear(sys.doc, p, s.past, drops);
    var q := if AllConfirmed(s.canceller) then PerformAll(sys.doc, p, drops) else p;
    RunClear(q.disk, CancelWrites(sys, s, writes).disk.run);
    OnlyTheRun(sys, s, writes, p, q);
  }

  lemma DropsGentle(d: Disk, ids: seq<NodeId>)
    ensures AllGentle(d, Drops(ids, WorkflowCancelled))
  {
  }

  lemma CancelledOpen(sys: System, s: State, writes: nat)
    requires Inv(sys, s) && s.canceller.Polling? && s.disk.run.phase != RunCompleted && AllApply(sys.doc, s.disk, CancelEdits(s.canceller))
    ensures
      var p := PerformAll(sys.doc, Fresh(s, writes), CancelEdits(s.canceller));
      DiskOk(sys.doc, p.disk, s.past) && p.disk.run.phase != RunCompleted
  {
    hide DiskOk, FlightOk, PerformAll, Legal, AllApply, Quiet, CancelEdits;
    var es := CancelEdits(s.canceller);
    CancelEditsLegal(sys, s);
    EditsKeep(sys.doc, Fresh(s, writes), s.past, es);
    EditsQuiet(sys.doc, Fresh(s, writes), s.past, es);
  }

  lemma OnlyTheRun(sys: System, s: State, writes: nat, p: Progress, q: Progress)
    requires s.canceller.Polling? && AllApply(sys.doc, s.disk, CancelEdits(s.canceller))
    requires p == PerformAll(sys.doc, Fresh(s, writes), CancelEdits(s.canceller)) && AllApply(sys.doc, p.disk, Drops(Leftovers(p.disk.nodes), WorkflowCancelled))
    requires q == if AllConfirmed(s.canceller) then PerformAll(sys.doc, p, Drops(Leftovers(p.disk.nodes), WorkflowCancelled)) else p
    ensures CancelWrites(sys, s, writes).disk == q.disk.(run := CancelWrites(sys, s, writes).disk.run)
  {
    hide PerformAll, AllApply, Leftovers, CancelEdits, AllConfirmed;
  }

  lemma RecordClear(sys: System, s: State, writes: nat)
    requires Inv(sys, s) && Clear(s.disk) && Untroubled(s)
    ensures Clear(DoApplyCancel(sys, s, writes).disk)
  {
    hide Inv, Clear, CancelWrites, AllApply, CancelEdits, LeftAtWork;
    if s.canceller.Polling? && AllApply(sys.doc, s.disk, CancelEdits(s.canceller)) && s.disk.run.phase != RunCompleted {
      CancelWritesClear(sys, s, writes);
    }
  }

  /** An action leaves attempts alone, and makes no node active. */
  lemma ActClear(sys: System, s: State, action: Action, writes: nat)
    requires Inv(sys, s) && Clear(s.disk)
    ensures Clear(DoAct(sys, s, action, writes).disk)
  {
    var t := DoAct(sys, s, action, writes);
    if !AllowedAgain(s, action) && Allowed(s, action) && Fits(sys.doc, s.disk.nodes) {
      ActWritesNodes(sys.doc, Fresh(s, writes), action);
      assert t.disk.attempts == s.disk.attempts by { hide ActWrites, Takes, Repeats; }
      forall j | 0 <= j < |s.disk.nodes|
        ensures j < |t.disk.nodes| && t.disk.nodes[j].attempt == s.disk.nodes[j].attempt && (Active(t.disk.nodes[j]) ==> Active(s.disk.nodes[j]))
      {
        ActNode(sys, s, action, writes, j);
      }
    } else {
      hide Takes, Repeats, ActWrites;
    }
    hide Inv, DoAct, Fits, Takes;
  }

  /** Every other step leaves the nodes alone, and says of no attempt that it is cancelled. */
  lemma LaunchClear(s: State, k: Key, writes: nat)
    requires Clear(s.disk)
    ensures Clear(DoBegin(s, k, writes).disk) && Clear(DoLand(s, k, writes).disk)
  {
  }

  lemma PlainAttempts(sys: System, s: State, step: Step)
    requires !WritesNodes(step) && !step.Begin? && !step.Land?
    ensures Apply(sys, s, step).disk.nodes == s.disk.nodes && Apply(sys, s, step).disk.attempts == s.disk.attempts
  {
    PlainMoves(sys, s, step);
    hide Joined, Targets, ActiveKeys, Mutable, Picked, DoSettle, DoSchedule, DoResolve, DoApplyCancel, DoRecoverEnd, DoAct, DoBegin, DoLand;
  }

  lemma StepClear(sys: System, s: State, step: Step)
    requires Inv(sys, s) && Clear(s.disk) && Untroubled(s) && !step.RecoverEnd?
    ensures Clear(Apply(sys, s, step).disk)
  {
    hide Inv, Clear, Untroubled, DoSettle, DoResolve, DoApplyCancel, DoAct, DoBegin, DoLand, DoSchedule, DoRecoverEnd;
    match step
    case Settle(writes) => SettleClear(sys, s, writes);
    case Schedule(limit, writes) => ScheduleClear(sys, s, limit, writes);
    case Resolve(k, writes) => ResolveClear(sys, s, k, writes);
    case ApplyCancel(writes) => RecordClear(sys, s, writes);
    case Act(action, writes) => ActClear(sys, s, action, writes);
    case Begin(k, writes) => LaunchClear(s, k, writes);
    case Land(k, writes) => LaunchClear(s, k, writes);
    case _ => PlainClear(sys, s, step);
  }

  lemma PlainClear(sys: System, s: State, step: Step)
    requires Clear(s.disk) && !WritesNodes(step) && !step.Begin? && !step.Land?
    ensures Clear(Apply(sys, s, step).disk)
  {
    PlainAttempts(sys, s, step);
    hide Apply;
  }

  /** With clear attempts a cancellation deals with every active node. */
  lemma ClearAbandonsNone(sys: System, s: State, step: Step)
    requires Inv(sys, s) && Clear(s.disk) && !step.RecoverEnd?
    ensures !Abandons(s, step)
  {
    hide DiskOk, FlightsOk, ObservingOk, RecoverOk;
  }

  // ----- whole runs -----

  lemma {:induction false} StaysClear(sys: System, steps: seq<Step>)
    requires Ordered(sys.doc) && forall i :: 0 <= i < |steps| ==> !steps[i].RecoverEnd?
    ensures Clear(After(sys, steps).disk)
  {
    hide Inv, Apply, Untroubled;
    if steps != [] {
      var n := |steps| - 1;
      assert forall i :: 0 <= i < n ==> steps[..n][i] == steps[i];
      StaysClear(sys, steps[..n]);
      OnlyRecoveryRevives(sys, steps[..n]);
      ReachedInv(sys, steps[..n]);
      hide Clear;
      StepClear(sys, After(sys, steps[..n]), steps[n]);
    }
  }

  /** As long as no recovery comes to its end, no cancellation leaves a node behind and none
      revives one. */
  lemma UndisturbedSteps(sys: System, steps: seq<Step>, n: nat)
    requires Ordered(sys.doc) && (forall i :: 0 <= i < |steps| ==> !steps[i].RecoverEnd?) && n < |steps|
    ensures !Abandons(After(sys, steps[..n]), steps[n]) && !Revives(After(sys, steps[..n]), steps[n])
  {
    assert forall i :: 0 <= i < n ==> steps[..n][i] == steps[i];
    StaysClear(sys, steps[..n]);
    OnlyRecoveryRevives(sys, steps[..n]);
    ReachedInv(sys, steps[..n]);
    hide Inv, Apply, Untroubled, Clear, Abandons, Revives;
    ClearAbandonsNone(sys, After(sys, steps[..n]), steps[n]);
    StaysUntroubled(sys, After(sys, steps[..n]), steps[n]);
  }

  /** In every such run a completed run has no work left exactly when no action has stopped
      between its first node and the run's file. */
  lemma UndisturbedCompletion(sys: System, steps: seq<Step>)
    requires Ordered(sys.doc) && forall i :: 0 <= i < |steps| ==> !steps[i].RecoverEnd?
    ensures After(sys, steps).disk.run.phase == RunCompleted ==> (AllDone(After(sys, steps).disk.nodes) <==> !After(sys, steps).torn)
  {
    hide After, Abandons, AllDone;
    forall n | 0 <= n < |steps| ensures !Abandons(After(sys, steps[..n]), steps[n]) { UndisturbedSteps(sys, steps, n); }
    CompletedMeansDone(sys, steps);
  }

  /** In every such run without retries dependencies hold at every moment. */
  lemma UndisturbedDependencies(sys: System, steps: seq<Step>)
    requires Ordered(sys.doc) && forall i :: 0 <= i < |steps| ==> !steps[i].RecoverEnd? && !(steps[i].Act? && steps[i].action.Retry?)
    ensures DependencySafe(sys.doc, After(sys, steps).disk.nodes)
  {
    hide After, Abandons, Revives, DependencySafe;
    forall n | 0 <= n < |steps| ensures Orderly(After(sys, steps[..n]), steps[n]) { UndisturbedSteps(sys, steps, n); }
    DependenciesHold(sys, steps);
  }
}
