/** What the cancellation that is taken up again after a restart leaves behind. It settles
    one attempt only, and the canceller may take up the same request beside it. */
module RunRecovery {
  import opened Workflow
  import opened Scheduler
  import opened Topology
  import opened RunMachine
  import opened RunInvariant
  import opened RunSteps
  import opened RunGuarantees
  import opened RunProgress
  import opened RunCancellation
  import opened RunCompletion
  import opened RunDependencies
  import opened RunCounterexample

  // ----- what it settles -----

  /** Concluding one attempt leaves the others as they were. */
  lemma ConcludesOne(doc: Document, p: Progress, k: Key)
    requires Applies(doc, p.disk, Conclude(k))
    ensures
      var q := Perform(doc, p, Conclude(k));
      && (forall j :: j in p.disk.attempts && j != k ==> q.disk.attempts[j] == p.disk.attempts[j])
      && (q.ok ==> Noted(q.disk, k) && CancelledNode(q.disk.nodes[k.node]))
      && (forall i :: 0 <= i < |p.disk.nodes| && i != k.node ==> q.disk.nodes[i] == p.disk.nodes[i])
  {
  }

  lemma RecoveryAttempts(sys: System, s: State, first: Option<Key>, writes: nat, k: Key)
    requires |s.disk.nodes| == |sys.doc.nodes| && (first.Some? ==> Applies(sys.doc, s.disk, Conclude(first.value))) && k in s.disk.attempts
    ensures
      var q := RecoveryWrites(sys, s, first, writes);
      k in q.disk.attempts && (if first == Some(k) then q.ok ==> Noted(q.disk, k) else q.disk.attempts[k] == s.disk.attempts[k])
  {
    hide Perform, PerformAll, AllApply, Leftovers, Noted, Applies;
    var p := if first.Some? then Perform(sys.doc, Fresh(s, writes), Conclude(first.value)) else Fresh(s, writes);
    if first.Some? { ConcludesOne(sys.doc, Fresh(s, writes), first.value); }
    var drops := Drops(Leftovers(p.disk.nodes), WorkflowCancelled);
    if AllApply(sys.doc, p.disk, drops) {
      DropsSubdue(sys.doc, p, drops);
      if !p.ok { FaultsStay(sys.doc, p, drops); }
      SameNoted(p.disk, PerformAll(sys.doc, p, drops).disk, k);
      SameNoted(p.disk, RecoveryWrites(sys, s, first, writes).disk, k);
    }
  }

  lemma SameNoted(d: Disk, e: Disk, k: Key)
    ensures e.attempts == d.attempts ==> (Noted(e, k) <==> Noted(d, k))
  {
  }

  /** The node and its attempt are exactly as they were. */
  ghost predicate LeftAlone(d: Disk, e: Disk, i: NodeId)
  {
    && i < |d.nodes| && i < |e.nodes| && e.nodes[i] == d.nodes[i]
    && var k := Key(i, d.nodes[i].attempt); k in d.attempts && k in e.attempts && e.attempts[k] == d.attempts[k]
  }

  /** What recovery has done to a node of a run that it completes: it has settled the attempt
      in its hand and dropped what had not begun; every other active node it has left alone. */
  ghost predicate EndedAs(s: State, t: State, i: NodeId)
    requires s.stage.Recovering? && s.stage.progress.Ending?
  {
    && i < |s.disk.nodes| && i < |t.disk.nodes| && t.disk.run.conclusion == Cancelled
    && var k := Key(i, s.disk.nodes[i].attempt);
       if s.stage.progress.first == Some(k) then Noted(t.disk, k) && Done(t.disk.nodes[i])
       else if Active(s.disk.nodes[i]) then LeftAlone(s.disk, t.disk, i)
       else Done(t.disk.nodes[i])
  }

  /** In every reachable state, recovery that completes the run settles one attempt only. */
  lemma OnlyTheFirstIsCancelled(sys: System, steps: seq<Step>, writes: nat, i: NodeId)
    requires Ordered(sys.doc) && After(sys, steps).stage.Recovering? && After(sys, steps).stage.progress.Ending?
    requires After(sys, steps).disk.run.phase != RunCompleted && i < |After(sys, steps).disk.nodes|
    requires Apply(sys, After(sys, steps), RecoverEnd(writes)).disk.run.phase == RunCompleted
    ensures EndedAs(After(sys, steps), Apply(sys, After(sys, steps), RecoverEnd(writes)), i)
  {
    hide Inv, DoRecoverEnd, EndedAs;
    ReachedInv(sys, steps);
    EndsOnlyTheFirst(sys, After(sys, steps), writes, i);
  }

  lemma RecoveryNode(sys: System, s: State, first: Option<Key>, writes: nat, i: NodeId)
    requires DiskOk(sys.doc, s.disk, s.past) && s.disk.run.phase != RunCompleted && s.disk.run.cancelRequested
    requires (first.Some? ==> AtHand(s.disk, first.value)) && i < |s.disk.nodes|
    ensures |s.disk.nodes| == |sys.doc.nodes| && (first.Some? ==> Applies(sys.doc, s.disk, Conclude(first.value)))
    ensures
      var p := RecoveryWrites(sys, s, first, writes);
      && |p.disk.nodes| == |s.disk.nodes| && (p.disk.run.phase == RunCompleted <==> p.ok)
      && (p.ok ==>
            && p.disk.run.conclusion == Cancelled && (Done(p.disk.nodes[i]) || p.disk.nodes[i] == s.disk.nodes[i])
            && (Done(p.disk.nodes[i]) <==> !(Active(s.disk.nodes[i]) && Key(i, s.disk.nodes[i].attempt) !in KeysOf(first))))
  {
    hide DiskOk, RecoveryWrites, Subdued, Done, AtHand;
    RecoveryWritesKeep(sys, s, first, writes);
  }

  lemma EndsOnlyTheFirst(sys: System, s: State, writes: nat, i: NodeId)
    requires Inv(sys, s) && s.stage.Recovering? && s.stage.progress.Ending?
    requires s.disk.run.phase != RunCompleted && i < |s.disk.nodes|
    requires DoRecoverEnd(sys, s, writes).disk.run.phase == RunCompleted
    ensures EndedAs(s, DoRecoverEnd(sys, s, writes), i)
  {
    var first, k := s.stage.progress.first, Key(i, s.disk.nodes[i].attempt);
    hide DiskOk, FlightsOk, ObservingOk, CancelOk, RecoveryWrites, LeftAtWork, Done, Noted, AtHand, Applies;
    RecoveryNode(sys, s, first, writes, i);
    if first == Some(k) || Active(s.disk.nodes[i]) {
      if Active(s.disk.nodes[i]) { ActiveOnDisk(sys, s, k); }
      if first == Some(k) { InHandOnDisk(s); }
      RecoveryAttempts(sys, s, first, writes, k);
    }
  }

  lemma InHandOnDisk(s: State)
    requires RecoverOk(s) && InHand(s.stage).Some?
    ensures InHand(s.stage).value in s.disk.attempts
  {
  }

  /** When recovery completes the run, no node is left at work if and only if none but the
      one in its hand was at work before. */
  lemma RecoveryLeavesNoneAtWork(sys: System, steps: seq<Step>, writes: nat)
    requires Ordered(sys.doc) && After(sys, steps).stage.Recovering? && After(sys, steps).stage.progress.Ending?
    requires After(sys, steps).disk.run.phase != RunCompleted
    requires Apply(sys, After(sys, steps), RecoverEnd(writes)).disk.run.phase == RunCompleted
    ensures
      var s, t := After(sys, steps), Apply(sys, After(sys, steps), RecoverEnd(writes));
      (forall i :: 0 <= i < |t.disk.nodes| ==> !AtWork(t.disk.nodes[i]))
      <==> (forall i :: 0 <= i < |s.disk.nodes| && AtWork(s.disk.nodes[i]) ==> s.stage.progress.first == Some(Key(i, s.disk.nodes[i].attempt)))
  {
    hide Inv, DoRecoverEnd, AtWork;
    ReachedInv(sys, steps);
    ReachedInv(sys, steps + [RecoverEnd(writes)]);
    assert (steps + [RecoverEnd(writes)])[..|steps|] == steps;
    LeavesNoneAtWork(sys, After(sys, steps), writes);
  }

  lemma LeavesNoneAtWork(sys: System, s: State, writes: nat)
    requires Inv(sys, s) && s.stage.Recovering? && s.stage.progress.Ending? && s.disk.run.phase != RunCompleted
    requires Inv(sys, DoRecoverEnd(sys, s, writes)) && DoRecoverEnd(sys, s, writes).disk.run.phase == RunCompleted
    ensures
      var t := DoRecoverEnd(sys, s, writes);
      (forall i :: 0 <= i < |t.disk.nodes| ==> !AtWork(t.disk.nodes[i]))
      <==> (forall i :: 0 <= i < |s.disk.nodes| && AtWork(s.disk.nodes[i]) ==> s.stage.progress.first == Some(Key(i, s.disk.nodes[i].attempt)))
  {
    var t := DoRecoverEnd(sys, s, writes);
    hide DiskOk, FlightsOk, ObservingOk, CancelOk, AtWork, RecoveryWrites, LeftAtWork;
    RecoveryWritesKeep(sys, s, s.stage.progress.first, writes);
    assert |t.disk.nodes| == |s.disk.nodes|;
    hide RecoverOk, DoRecoverEnd;
    forall i | 0 <= i < |s.disk.nodes|
      ensures AtWork(t.disk.nodes[i]) <==> AtWork(s.disk.nodes[i]) && s.stage.progress.first != Some(Key(i, s.disk.nodes[i].attempt))
    {
      EndsOnlyTheFirst(sys, s, writes, i);
      AtWorkIsActive(sys, s, i);
      AtWorkIsActive(sys, t, i);
    }
  }

  // ----- when a completed run opens again -----

  /** An action on the run that goes through, or a recovery that has given up and records
      its failure. */
  ghost predicate OpensAgain(sys: System, s: State, step: Step)
  {
    || (step.RecoverEnd? && s.stage == Recovering(Refusing) && step.writes > 0)
    || (step.Act? && Allowed(s, step.action) && Fits(sys.doc, s.disk.nodes)
        && WriteRun(ActWrites(sys.doc, Fresh(s, step.writes), step.action), Reopened(s.disk.run)).ok)
  }

  /** Nothing else opens a completed run again. */
  lemma CompletionUndoneIff(sys: System, s: State, step: Step)
    requires Inv(sys, s) && s.disk.run.phase == RunCompleted
    ensures Apply(sys, s, step).disk.run.phase != RunCompleted <==> OpensAgain(sys, s, step)
  {
    hide Inv;
    if step.Act? {
      ActUndoes(sys, s, step.action, step.writes);
    } else if Canceling(step) {
      CancelingUndoes(sys, s, step);
    } else {
      hide Perform, PerformAll, AllApply, Applies, Plan, Targets, ActiveKeys, EditFor, Aggregate, Joined, EditsOf, NewFlights, DoAct,
        DoMarkCancel, DoPollTarget, DoGiveUp, DoCancelBackend, DoApplyCancel, DoStartRecovery, DoRecoverMark, DoRecoverLook, DoRecoverEnd;
    }
  }

  predicate Canceling(step: Step)
  {
    || step.MarkCancel? || step.PollTarget? || step.GiveUp? || step.CancelBackend? || step.ApplyCancel?
    || step.StartRecovery? || step.RecoverMark? || step.RecoverLook? || step.RecoverGiveUp? || step.RecoverAsk? || step.RecoverEnd?
  }

  lemma CancelingUndoes(sys: System, s: State, step: Step)
    requires s.disk.run.phase == RunCompleted && Canceling(step)
    ensures Apply(sys, s, step).disk.run.phase != RunCompleted <==> step.RecoverEnd? && s.stage == Recovering(Refusing) && step.writes > 0
  {
    hide Perform, PerformAll, AllApply, Applies, Targets, ActiveKeys, AllAnswered, LeftAtWork, CancelWrites, RecoveryWrites, Picked,
      DoStartControl, DoStopControl, DoFailControl, DoBeginReconcile, DoObserve, DoSettle, DoSchedule, DoBegin, DoCallStart, DoLand, DoResolve, DoAct;
  }

  lemma ActUndoes(sys: System, s: State, action: Action, writes: nat)
    requires Inv(sys, s) && s.disk.run.phase == RunCompleted
    ensures DoAct(sys, s, action, writes).disk.run.phase != RunCompleted <==>
              Allowed(s, action) && Fits(sys.doc, s.disk.nodes)
              && WriteRun(ActWrites(sys.doc, Fresh(s, writes), action), Reopened(s.disk.run)).ok
  {
    hide Inv, Takes, Repeats;
    if Allowed(s, action) && Fits(sys.doc, s.disk.nodes) { ActWritesNodes(sys.doc, Fresh(s, writes), action); }
    hide ActWrites;
  }

  // ----- runs in which it goes wrong -----

  const STARTED := Attempt(HandlePersisted, true, Running, NoConclusion, NoReason, false)

  const STOPPED := STARTED.(phase := Completed, conclusion := Cancelled, reason := UserRequested)

  /** A cancelled run at rest: its agent is at work, and nobody works on the run. */
  ghost predicate CancelledAtRest(s: State)
  {
    && s.stage == Off && s.canceller == NoCancel && !s.stopping && s.flights == map[] && s.confirmed == {}
    && s.disk == Disk(Run(Cancelling, NoConclusion, NoReason, true), [RUNNING], map[ATTEMPT := STARTED]) && ATTEMPT in s.past.started
  }

  lemma MarkedTargets(s: State)
    requires s.canceller == NoCancel && !s.stopping && s.disk.nodes == [RUNNING] && s.disk.run.phase != RunCompleted
    requires ATTEMPT in s.disk.attempts && !AlreadyCancelled(s.disk.attempts[ATTEMPT]) && s.disk.run.conclusion == NoConclusion
    ensures
      var t := DoMarkCancel(s, 9);
      && t.canceller == Polling([ATTEMPT], map[ATTEMPT := Unasked]) && t == s.(disk := t.disk, canceller := t.canceller, torn := false)
      && t.disk == s.disk.(run := t.disk.run) && t.disk.run == Run(Cancelling, NoConclusion, t.disk.run.reason, true)
      && (s.disk.run.cancelRequested && s.disk.run.phase == Cancelling ==> t.disk.run == s.disk.run)
      && (!s.disk.run.cancelRequested ==> t.disk.run.reason == NoReason)
  {
    hide Targets, ActiveKeys;
    OneActive();
    assert Targets(DoMarkCancel(s, 9).disk, [ATTEMPT]) == [ATTEMPT] by { OneLiveTarget(DoMarkCancel(s, 9).disk); }
    assert (map k | k in [ATTEMPT] :: Unasked) == map[ATTEMPT := Unasked];
  }

  lemma OneLiveTarget(d: Disk)
    requires ATTEMPT in d.attempts && !AlreadyCancelled(d.attempts[ATTEMPT])
    ensures Targets(d, [ATTEMPT]) == [ATTEMPT]
  {
    var none: seq<Key> := [];
    assert [ATTEMPT][..0] == none && Targets(d, none) == none;
  }

  /** The engine stops right after the cancellation was put on disk. */
  lemma StoppedWhileCancelling() returns (s: State, steps: seq<Step>)
    ensures s == After(SINGLE, steps) && CancelledAtRest(s)
  {
    hide After, DoMarkCancel, ActiveKeys;
    s, steps := Launched();
    MarkedTargets(s);
    s, steps := Next(s, steps, MarkCancel(9));
    s, steps := Next(s, steps, Crash);
  }

  /** Recovery has the attempt in its hand. */
  ghost predicate AtHandAgain(s: State, progress: Recovery)
  {
    && s.stage == Recovering(progress) && s.canceller == NoCancel && !s.stopping && s.flights == map[] && s.confirmed == {}
    && s.disk == Disk(Run(Cancelling, NoConclusion, NoReason, true), [RUNNING], map[ATTEMPT := STARTED]) && ATTEMPT in s.past.started
  }

  lemma Looked() returns (s: State, steps: seq<Step>)
    ensures s == After(SINGLE, steps) && AtHandAgain(s, Looking(ATTEMPT))
  {
    hide After, DoSettle, DoObserve, DoResolve, DoAct, DoFailControl, DoSchedule, DoMarkCancel, DoApplyCancel, DoRecoverEnd, DoBegin, DoLand;
    s, steps := StoppedWhileCancelling();
    s, steps := Next(s, steps, StartRecovery(9));
    assert Picked([RUNNING]) == Looking(ATTEMPT);
    hide Picked;
    s, steps := Next(s, steps, RecoverMark(9));
  }

  lemma Asked() returns (s: State, steps: seq<Step>)
    ensures s == After(SINGLE, steps) && AtHandAgain(s, Asking(ATTEMPT))
  {
    hide After, DoApplyCancel, DoRecoverEnd, DoSchedule;
    s, steps := Looked();
    s, steps := Next(s, steps, RecoverLook(false));
  }

  /** The monitor has taken up the same request, and its backend call is under way. */
  ghost predicate BothAsk(s: State)
  {
    && s.stage == Recovering(Asking(ATTEMPT)) && s.canceller == Polling([ATTEMPT], map[ATTEMPT := Holding]) && !s.stopping
    && s.disk == Disk(Run(Cancelling, NoConclusion, NoReason, true), [RUNNING], map[ATTEMPT := STARTED]) && s.confirmed == {}
  }

  lemma BothAsked() returns (s: State, steps: seq<Step>)
    ensures s == After(SINGLE, steps) && BothAsk(s)
  {
    hide After, DoMarkCancel, DoPollTarget;
    s, steps := Asked();
    MarkedTargets(s);
    s, steps := Next(s, steps, MarkCancel(9));
    HeldOnce(s);
    s, steps := Next(s, steps, PollTarget(ATTEMPT, false));
  }

  lemma HeldOnce(s: State)
    requires s.canceller == Polling([ATTEMPT], map[ATTEMPT := Unasked]) && s.disk.attempts == map[ATTEMPT := STARTED]
    ensures DoPollTarget(s, ATTEMPT, false) == s.(canceller := Polling([ATTEMPT], map[ATTEMPT := Holding]))
  {
    assert s.canceller.polls[ATTEMPT := Holding] == map[ATTEMPT := Holding];
  }

  lemma AnsweredOnce(s: State, confirmed: bool)
    requires s.canceller == Polling([ATTEMPT], map[ATTEMPT := Holding])
    ensures
      var t := DoCancelBackend(s, ATTEMPT, confirmed);
      t == s.(canceller := Polling([ATTEMPT], map[ATTEMPT := Answered(confirmed)]), confirmed := t.confirmed)
  {
    assert s.canceller.polls[ATTEMPT := Answered(confirmed)] == map[ATTEMPT := Answered(confirmed)];
  }

  /** The monitor completes the run; recovery's own call then ends in the stop of its
      controller, and its failure opens the completed run again. */
  lemma CompletionUndone() returns (before: seq<Step>, steps: seq<Step>)
    ensures After(SINGLE, before).disk.run.phase == RunCompleted && AllDone(After(SINGLE, before).disk.nodes)
    ensures steps == before + [RecoverEnd(9)]
    ensures After(SINGLE, steps).disk.run.phase == RunWaiting && AllDone(After(SINGLE, steps).disk.nodes)
  {
    hide After, DoApplyCancel, DoCancelBackend;
    var s: State;
    s, before := CompletedByMonitor();
    steps := before + [RecoverEnd(9)];
    OneStepOn(before, RecoverEnd(9));
  }

  /** The monitor has completed the run, and recovery's call has ended. */
  lemma CompletedByMonitor() returns (s: State, steps: seq<Step>)
    ensures s == After(SINGLE, steps) && s.stage == Recovering(Refusing) && s.disk.run.phase == RunCompleted && AllDone(s.disk.nodes)
  {
    hide After, DoApplyCancel, DoCancelBackend, AllDone, DoSettle, DoObserve, DoResolve, DoAct, DoFailControl, DoBeginReconcile, DoStartControl, DoSchedule, DoMarkCancel, DoPollTarget, DoRecoverEnd, DoBegin, DoLand;
    s, steps := BothAsked();
    AnsweredOnce(s, true);
    s, steps := Next(s, steps, CancelBackend(ATTEMPT, true));
    RecordedBoth(s);
    s, steps := Next(s, steps, ApplyCancel(9));
    s, steps := Next(s, steps, RecoverGiveUp);
  }

  lemma OneStepOn(before: seq<Step>, step: Step)
    ensures After(SINGLE, before + [step]) == Apply(SINGLE, After(SINGLE, before), step)
  {
    assert (before + [step])[..|before|] == before;
  }

  lemma RecordedBoth(s: State)
    requires s.disk.nodes == [RUNNING] && ATTEMPT in s.disk.attempts && s.disk.run.phase == Cancelling
    requires s.canceller == Polling([ATTEMPT], map[ATTEMPT := Answered(true)])
    ensures
      var t := DoApplyCancel(SINGLE, s, 9);
      t.disk.run.phase == RunCompleted && AllDone(t.disk.nodes) && t.stage == s.stage
  {
    hide LeftAtWork, Perform, PerformAll, AllApply, CancelEdits, Leftovers, Targets;
    RecordedCancel(s);
  }

  /** Recovery's call is confirmed and recorded with its node, but not with the run; the
      monitor's call is refused, and its recording turns the concluded node back. */
  lemma ConcludedThenRefused() returns (before: seq<Step>, steps: seq<Step>)
    ensures |After(SINGLE, before).disk.nodes| == 1 && CancelledNode(After(SINGLE, before).disk.nodes[0]) && ATTEMPT in After(SINGLE, before).confirmed
    ensures steps == before + [ApplyCancel(9)] && Revives(After(SINGLE, before), ApplyCancel(9))
    ensures |After(SINGLE, steps).disk.nodes| == 1 && After(SINGLE, steps).disk.nodes[0].phase == Waiting
  {
    hide After, DoApplyCancel, DoCancelBackend, DoRecoverEnd;
    var s: State;
    s, before := BothAsked();
    AnsweredOnce(s, false);
    s, before := Next(s, before, CancelBackend(ATTEMPT, false));
    s, before := Next(s, before, RecoverAsk(true));
    CutAfterNode(s, 2);
    s, before := Next(s, before, RecoverEnd(2));
    steps := before + [ApplyCancel(9)];
    OneStepOn(before, ApplyCancel(9));
    TurnedBack(s);
  }

  /** Recovery's last writes, cut after the attempt or after its node. */
  lemma CutAfterNode(s: State, writes: nat)
    requires s.stage == Recovering(Ending(Some(ATTEMPT))) && 1 <= writes <= 2
    requires s.disk == Disk(Run(Cancelling, NoConclusion, NoReason, true), [RUNNING], map[ATTEMPT := STARTED])
    ensures
      var t := DoRecoverEnd(SINGLE, s, writes);
      && t == Halt(s).(disk := t.disk) && t.disk.run == s.disk.run && t.disk.attempts == map[ATTEMPT := STOPPED] && |t.disk.nodes| == 1
      && (if writes == 1 then t.disk.nodes == [RUNNING] else CancelledNode(t.disk.nodes[0]) && t.disk.nodes[0].attempt == 1 && t.disk.nodes[0].kind == Agent)
  {
    var p := Perform(SINGLE.doc, Fresh(s, writes), Conclude(ATTEMPT));
    assert p.disk.nodes[..0] == [] && Leftovers(p.disk.nodes) == [];
    assert Drops([], WorkflowCancelled) == [];
    assert PerformAll(SINGLE.doc, p, []) == p;
  }

  lemma TurnedBack(s: State)
    requires s.canceller == Polling([ATTEMPT], map[ATTEMPT := Answered(false)]) && s.disk.run.phase == Cancelling
    requires |s.disk.nodes| == 1 && CancelledNode(s.disk.nodes[0]) && ATTEMPT in s.disk.attempts
    ensures Revives(s, ApplyCancel(9)) && |Apply(SINGLE, s, ApplyCancel(9)).disk.nodes| == 1
    ensures Apply(SINGLE, s, ApplyCancel(9)).disk.nodes[0].phase == Waiting
  {
    var es := CancelEdits(s.canceller);
    assert es == [Refuse(ATTEMPT)] && es[1..] == [];
    assert AllApply(SINGLE.doc, s.disk, es);
    var p := Perform(SINGLE.doc, Fresh(s, 9), Refuse(ATTEMPT));
    assert PerformAll(SINGLE.doc, p, []) == p && PerformAll(SINGLE.doc, Fresh(s, 9), es) == p;
    assert ATTEMPT in s.canceller.targets;
  }

  /** Recovery is cut between the attempt and its node; the next cancellation passes over
      that attempt and completes the run with the node still running. */
  lemma LeftByCut() returns (steps: seq<Step>)
    ensures
      var s := After(SINGLE, steps);
      s.disk.run.phase == RunCompleted && s.disk.run.conclusion == Cancelled && s.disk.nodes == [RUNNING] && s.abandoned
  {
    hide After, DoApplyCancel, DoRecoverEnd, DoMarkCancel;
    var s: State;
    s, steps := Asked();
    s, steps := Next(s, steps, RecoverAsk(true));
    CutAfterNode(s, 1);
    s, steps := Next(s, steps, RecoverEnd(1));
    NoneTargeted(s);
    s, steps := Next(s, steps, MarkCancel(9));
    CompletesWithoutTargets(s);
    s, steps := Next(s, steps, ApplyCancel(9));
  }

  lemma NoneTargeted(s: State)
    requires s.canceller == NoCancel && s.stage == Off && s.disk.nodes == [RUNNING] && s.disk.attempts == map[ATTEMPT := STOPPED]
    requires s.disk.run == Run(Cancelling, NoConclusion, NoReason, true)
    ensures DoMarkCancel(s, 9) == s.(canceller := Polling([], map[]), torn := false)
  {
    hide Targets, ActiveKeys;
    OneActive();
    var none: seq<Key> := [];
    assert Targets(s.disk, [ATTEMPT]) == none by { NotTargeted(s.disk); }
    assert (map k | k in none :: Unasked) == map[];
  }

  lemma NotTargeted(d: Disk)
    requires ATTEMPT in d.attempts && AlreadyCancelled(d.attempts[ATTEMPT])
    ensures Targets(d, [ATTEMPT]) == []
  {
    var none: seq<Key> := [];
    assert [ATTEMPT][..0] == none && Targets(d, none) == none;
  }

  lemma CompletesWithoutTargets(s: State)
    requires s.canceller == Polling([], map[]) && s.disk.nodes == [RUNNING] && s.disk.run.phase == Cancelling
    ensures
      var t := DoApplyCancel(SINGLE, s, 9);
      t.disk.run.phase == RunCompleted && t.disk.run.conclusion == Cancelled && t.disk.nodes == [RUNNING] && t.abandoned
  {
    var es := CancelEdits(s.canceller);
    assert es == [] && PerformAll(SINGLE.doc, Fresh(s, 9), es) == Fresh(s, 9);
    assert [RUNNING][..0] == [] && Leftovers([RUNNING]) == [];
    assert Drops([], WorkflowCancelled) == [];
    assert Active(s.disk.nodes[0]) && Key(0, s.disk.nodes[0].attempt) !in s.canceller.targets;
  }

  // ----- the second agent is left running -----

  /** Two agents, neither before the other. */
  const PAIR := System(Document([Definition(Agent, [], None), Definition(Agent, [], None)], 2))

  const SECOND := Key(1, 1)

  const BLANK := NewNode(Definition(Agent, [], None))

  lemma NextOfPair(s: State, steps: seq<Step>, step: Step) returns (t: State, longer: seq<Step>)
    requires s == After(PAIR, steps)
    ensures t == Apply(PAIR, s, step) && t == After(PAIR, longer)
  {
    t, longer := Apply(PAIR, s, step), steps + [step];
    assert longer[..|steps|] == steps;
  }

  lemma FatedPair(fate: Fate, f: Fate)
    ensures Fated([fate, fate], f, 2) == if fate == f then [0, 1] else []
  {
    assert Fated([fate, fate], f, 1) == Fated([fate, fate], f, 0) + if fate == f then [0] else [];
  }

  lemma PairFates(stop: bool)
    requires stop == Stops(NoConclusion, [BLANK, BLANK])
    ensures Fits(PAIR.doc, [BLANK, BLANK]) && Fates(PAIR.doc, [BLANK, BLANK], stop, 2) == [Launch, Launch]
  {
    var nodes := [BLANK, BLANK];
    assert FateOf(PAIR.doc, nodes, stop, 0) == Launch && FateOf(PAIR.doc, nodes, stop, 1) == Launch;
    assert Fates(PAIR.doc, nodes, stop, 1) == Fates(PAIR.doc, nodes, stop, 0) + [Launch];
  }

  lemma PairPlan()
    ensures Fits(PAIR.doc, [BLANK, BLANK])
    ensures
      var plan := Plan(PAIR.doc, NoConclusion, [BLANK, BLANK], 2);
      plan.Ok? && EditsOf(plan.value) == [Assign(0), Assign(1)] && plan.value.readyAgents == [0, 1]
  {
    var nodes := [BLANK, BLANK];
    hide FateOf, Fates, AllDone, Fated;
    PairFates(Stops(NoConclusion, nodes));
    forall f: Fate { FatedPair(Launch, f); }
    assert nodes[..1] == [BLANK] && [BLANK][..0] == [] && CountActive([BLANK]) == 0 && CountActive(nodes) == 0;
  }

  ghost predicate PairAt(s: State, stage: Stage)
  {
    && s.stage == stage && s.canceller == NoCancel && !s.stopping && s.confirmed == {}
    && s.disk.run == Run(RunRunning, NoConclusion, NoReason, false)
  }

  lemma PairControlled() returns (s: State, steps: seq<Step>)
    ensures s == After(PAIR, steps) && PairAt(s, Idle) && s.flights == map[] && s.disk.nodes == [BLANK, BLANK] && s.disk.attempts == map[]
  {
    var s0 := Initial(PAIR);
    assert s0 == After(PAIR, []);
    assert s0.disk.nodes == [BLANK, BLANK];
    hide After;
    s, steps := NextOfPair(s0, [], StartControl(true, 9));
  }

  lemma PairAssigned(s: State)
    requires s.disk.nodes == [BLANK, BLANK] && s.disk.attempts == map[]
    ensures AllApply(PAIR.doc, s.disk, [Assign(0), Assign(1)])
    ensures
      var p := PerformAll(PAIR.doc, Fresh(s, 9), [Assign(0), Assign(1)]);
      && p.ok && p.disk.nodes == [RUNNING, RUNNING] && p.disk.attempts == map[ATTEMPT := FRESH, SECOND := FRESH]
      && p.disk.run == s.disk.run.(phase := RunRunning, reason := NoReason, conclusion := NoConclusion)
  {
    var es := [Assign(0), Assign(1)];
    var p := Perform(PAIR.doc, Fresh(s, 9), Assign(0));
    var q := Perform(PAIR.doc, p, Assign(1));
    assert q == PerformAll(PAIR.doc, q, []) && es[1..] == [Assign(1)] && [Assign(1)][1..] == [];
    assert q == PerformAll(PAIR.doc, p, [Assign(1)]) && q == PerformAll(PAIR.doc, Fresh(s, 9), es);
    assert q.disk.nodes == [RUNNING, RUNNING];
  }

  lemma PairScheduledOnce(s: State)
    requires PairAt(s, Idle) && s.disk.nodes == [BLANK, BLANK] && s.disk.attempts == map[]
    ensures
      var t := DoSchedule(PAIR, s, 2, 9);
      && PairAt(t, Launching) && t.disk.nodes == [RUNNING, RUNNING] && t.disk.attempts == map[ATTEMPT := FRESH, SECOND := FRESH]
      && t.flights == map[ATTEMPT := Queued, SECOND := Queued]
  {
    hide Plan, PerformAll, EditsOf, AllApply;
    PairPlan();
    PairAssigned(s);
    assert NewFlights([RUNNING, RUNNING], [0, 1]) == map[ATTEMPT := Queued, SECOND := Queued];
  }

  /** One agent's launch, from its queue to its saved handle. */
  lemma LaunchesOne(s0: State, steps0: seq<Step>, k: Key) returns (s: State, steps: seq<Step>)
    requires s0 == After(PAIR, steps0) && PairAt(s0, Launching)
    requires k in s0.flights && s0.flights[k] == Queued && k in s0.disk.attempts && s0.disk.attempts[k] == FRESH
    ensures s == After(PAIR, steps) && PairAt(s, Launching) && s.disk.nodes == s0.disk.nodes
    ensures s.disk.attempts == s0.disk.attempts[k := STARTED] && s.flights == s0.flights[k := Landed(true, false)]
    ensures s.past.started == s0.past.started + multiset{k}
  {
    hide After, DoSettle, DoObserve, DoResolve, DoAct, DoFailControl, DoBeginReconcile, DoStartControl, DoSchedule, DoMarkCancel, DoPollTarget, DoApplyCancel, DoRecoverEnd;
    s, steps := NextOfPair(s0, steps0, Begin(k, 9));
    s, steps := NextOfPair(s, steps, CallStart(k, true, false));
    s, steps := NextOfPair(s, steps, Land(k, 9));
  }

  /** Both agents are at work, and the cancellation is on disk. */
  ghost predicate PairAtRest(s: State, stage: Stage)
  {
    && s.stage == stage && s.canceller == NoCancel && !s.stopping && s.confirmed == {}
    && s.disk == Disk(Run(Cancelling, NoConclusion, NoReason, true), [RUNNING, RUNNING], map[ATTEMPT := STARTED, SECOND := STARTED])
    && ATTEMPT in s.past.started && SECOND in s.past.started
  }

  lemma PairLaunched() returns (s: State, steps: seq<Step>)
    ensures s == After(PAIR, steps) && PairAt(s, Launching) && s.disk.nodes == [RUNNING, RUNNING]
    ensures s.disk.attempts == map[ATTEMPT := STARTED, SECOND := STARTED] && ATTEMPT in s.past.started && SECOND in s.past.started
  {
    hide After, DoSchedule;
    s, steps := PairControlled();
    PairScheduledOnce(s);
    s, steps := NextOfPair(s, steps, Schedule(2, 9));
    s, steps := LaunchesOne(s, steps, ATTEMPT);
    s, steps := LaunchesOne(s, steps, SECOND);
  }

  lemma PairCancelled() returns (s: State, steps: seq<Step>)
    ensures s == After(PAIR, steps) && PairAtRest(s, Off)
  {
    hide After, Targets, ActiveKeys;
    s, steps := PairLaunched();
    s, steps := NextOfPair(s, steps, MarkCancel(9));
    s, steps := NextOfPair(s, steps, Crash);
  }

  /** Recovery has picked the first agent. */
  lemma PairPicked() returns (s: State, steps: seq<Step>)
    ensures s == After(PAIR, steps) && PairAtRest(s, Recovering(Looking(ATTEMPT))) && !s.torn
  {
    hide After;
    s, steps := PairCancelled();
    s, steps := NextOfPair(s, steps, StartRecovery(9));
    assert Picked([RUNNING, RUNNING]) == Looking(ATTEMPT);
    hide Picked;
    s, steps := NextOfPair(s, steps, RecoverMark(9));
  }

  /** It asks the backend for that one only. */
  lemma PairAnswered() returns (s: State, steps: seq<Step>)
    ensures s == After(PAIR, steps) && s.disk == Disk(Run(Cancelling, NoConclusion, NoReason, true), [RUNNING, RUNNING], map[ATTEMPT := STARTED, SECOND := STARTED])
    ensures s.stage == Recovering(Ending(Some(ATTEMPT))) && s.confirmed == {ATTEMPT} && SECOND in s.past.started && !s.torn
  {
    hide After, Picked;
    s, steps := PairPicked();
    s, steps := NextOfPair(s, steps, RecoverLook(false));
    s, steps := NextOfPair(s, steps, RecoverAsk(true));
  }

  lemma PairEnded(s: State)
    requires s.stage == Recovering(Ending(Some(ATTEMPT)))
    requires s.disk == Disk(Run(Cancelling, NoConclusion, NoReason, true), [RUNNING, RUNNING], map[ATTEMPT := STARTED, SECOND := STARTED])
    ensures
      var t := DoRecoverEnd(PAIR, s, 9);
      && t.disk.run.phase == RunCompleted && t.disk.run.conclusion == Cancelled && t.abandoned
      && |t.disk.nodes| == 2 && t.disk.nodes[1] == RUNNING && SECOND in t.disk.attempts && t.disk.attempts[SECOND] == STARTED
      && t.past == s.past && t.confirmed == s.confirmed && t.torn == s.torn
  {
    var p := Perform(PAIR.doc, Fresh(s, 9), Conclude(ATTEMPT));
    assert |p.disk.nodes| == 2 && p.disk.nodes[1] == RUNNING && CancelledNode(p.disk.nodes[0]);
    NoLeftovers(p.disk.nodes);
    assert Drops([], WorkflowCancelled) == [];
    assert PerformAll(PAIR.doc, p, []) == p;
    assert Active(s.disk.nodes[1]) && Key(1, s.disk.nodes[1].attempt) !in KeysOf(Some(ATTEMPT));
  }

  lemma {:induction false} NoLeftovers(nodes: seq<Node>)
    requires forall i :: 0 <= i < |nodes| ==> !Leftover(nodes[i])
    ensures Leftovers(nodes) == []
  {
    if nodes != [] { NoLeftovers(nodes[..|nodes| - 1]); }
  }

  /** Two agents are at work when the cancelled run is taken up again: the run completes as
      cancelled, the second agent, whose cancellation was never asked for, still running. */
  lemma SecondIsLeftRunning() returns (steps: seq<Step>)
    ensures
      var s := After(PAIR, steps);
      && s.disk.run.phase == RunCompleted && s.disk.run.conclusion == Cancelled && !s.torn && s.abandoned
      && |s.disk.nodes| == 2 && s.disk.nodes[1] == RUNNING && SECOND in s.past.started && SECOND !in s.confirmed
  {
    hide After, DoRecoverEnd;
    var s: State;
    s, steps := PairAnswered();
    PairEnded(s);
    s, steps := NextOfPair(s, steps, RecoverEnd(9));
  }
}
