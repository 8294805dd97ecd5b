/** The engine as it runs: files, controller and canceller updated in place. Each method
    below is one step of the run machine. */
module RunService {
  import opened Workflow
  import opened Scheduler
  import opened Topology
  import opened RunMachine
  import opened RunInvariant
  import opened RunSteps

  // ----- lists of edits, taken apart -----

  lemma {:induction false} PerformConcat(doc: Document, p: Progress, a: seq<Edit>, b: seq<Edit>)
    requires AllApply(doc, p.disk, a + b) && AllApply(doc, p.disk, a)
    ensures AllApply(doc, PerformAll(doc, p, a).disk, b)
    ensures PerformAll(doc, p, a + b) == PerformAll(doc, PerformAll(doc, p, a), b)
    decreases |a|
  {
    if a == [] {
      assert a + b == b;
    } else {
      var p1 := Perform(doc, p, a[0]);
      assert (a + b)[0] == a[0] && (a + b)[1..] == a[1..] + b;
      assert forall i :: 0 <= i < |a + b| - 1 ==> (a + b)[1..][i] == (a + b)[i + 1];
      assert forall i :: 0 <= i < |a| - 1 ==> a[1..][i] == a[i + 1];
      PerformConcat(doc, p1, a[1..], b);
    }
  }

  class Engine {
    const sys: System
    var run: Run
    var nodes: seq<Node>
    var attempts: map<Key, Attempt>
    /** Durable writes that will still succeed in the section at work. */
    var writes: nat
    var stage: Stage
    var flights: map<Key, Flight>
    var stopping: bool
    var canceller: Canceller
    ghost var past: Past
    ghost var confirmed: set<Key>
    ghost var spared: set<Key>
    ghost var torn: bool
    ghost var abandoned: bool

    function Files(): Disk
      reads this
    {
      Disk(run, nodes, attempts)
    }

    ghost function Now(): State
      reads this
    {
      State(Files(), stage, flights, stopping, canceller, past, confirmed, spared, torn, abandoned)
    }

    function At(ok: bool): Progress
      reads this
    {
      Progress(Files(), writes, ok)
    }

    ghost predicate Valid()
      reads this
    {
      Inv(sys, Now())
    }

    constructor (sys: System)
      requires Ordered(sys.doc)
      ensures this.sys == sys && Now() == Initial(sys) && Valid()
    {
      this.sys := sys;
      var n := |sys.doc.nodes|;
      run := Run(RunRunning, NoConclusion, NoReason, false);
      nodes := seq(n, i requires 0 <= i < n => NewNode(sys.doc.nodes[i]));
      attempts := map[];
      writes := 0;
      stage, flights, stopping, canceller := Off, map[], false, NoCancel;
      past, confirmed, spared, torn, abandoned := Past(multiset{}, {}, seq(n, i => 0)), {}, {}, false, false;
      new;
      InitialInv(sys);
    }

    // ----- the store -----

    method PutNode(i: NodeId, n: Node) returns (ok: bool)
      requires i < |nodes|
      modifies `nodes, `writes
      ensures At(ok) == WriteNode(old(At(true)), i, n)
    {
      if writes == 0 { return false; }
      nodes, writes := nodes[i := n], writes - 1;
      return true;
    }

    /** An attempt's file is created once. */
    method NewAttempt(k: Key, a: Attempt) returns (ok: bool)
      modifies `attempts, `writes
      ensures At(ok) == CreateAttempt(old(At(true)), k, a)
    {
      if writes == 0 || k in attempts { return false; }
      attempts, writes := attempts[k := a], writes - 1;
      return true;
    }

    method PutAttempt(k: Key, a: Attempt) returns (ok: bool)
      modifies `attempts, `writes
      ensures At(ok) == UpdateAttempt(old(At(true)), k, a)
    {
      if writes == 0 { return false; }
      attempts, writes := attempts[k := a], writes - 1;
      return true;
    }

    method PutRun(r: Run) returns (ok: bool)
      modifies `run, `writes
      ensures At(ok) == WriteRun(old(At(true)), r)
    {
      if writes == 0 { return false; }
      run, writes := r, writes - 1;
      return true;
    }

    // ----- what a section does to one node -----

    method SkipNode(i: NodeId, reason: Reason) returns (ok: bool)
      requires Applies(sys.doc, Files(), Drop(i, reason))
      modifies `nodes, `writes
      ensures At(ok) == Perform(sys.doc, old(At(true)), Drop(i, reason))
    {
      ok := PutNode(i, nodes[i].(phase := Skipped, reason := reason));
    }

    method AskApproval(i: NodeId) returns (ok: bool)
      requires Applies(sys.doc, Files(), Ask(i))
      modifies `nodes, `writes
      ensures At(ok) == Perform(sys.doc, old(At(true)), Ask(i))
    {
      ok := PutNode(i, nodes[i].(phase := Waiting, reason := ApprovalRequired));
    }

    method AssignAgent(i: NodeId) returns (ok: bool)
      requires Applies(sys.doc, Files(), Assign(i))
      modifies `nodes, `writes, `attempts, `run
      ensures At(ok) == Perform(sys.doc, old(At(true)), Assign(i))
    {
      var number := nodes[i].attempt + 1;
      ok := NewAttempt(Key(i, number), FRESH);
      if !ok { return; }
      ok := PutNode(i, nodes[i].(phase := Running, reason := NoReason, conclusion := NoConclusion, attempt := number));
      if !ok { return; }
      ok := PutRun(run.(phase := RunRunning, reason := NoReason, conclusion := NoConclusion));
    }

    method FinishResult(k: Key, conclusion: Conclusion, output: Output) returns (ok: bool)
      requires Applies(sys.doc, Files(), Finish(k, conclusion, output))
      modifies `nodes, `writes, `attempts, `run
      ensures At(ok) == Perform(sys.doc, old(At(true)), Finish(k, conclusion, output))
    {
      var attempt := attempts[k].(phase := Completed, conclusion := conclusion, consumed := true);
      ok := PutNode(k.node, nodes[k.node].(phase := Completed, conclusion := conclusion, reason := NoReason, result := Some(output)));
      if !ok { return; }
      ok := PutAttempt(k, attempt);
      if !ok { return; }
      ok := PutRun(run.(phase := RunRunning, reason := NoReason, conclusion := NoConclusion));
    }

    /** Concludes the attempt before its node. */
    method FinishIndeterminate(k: Key) returns (ok: bool)
      requires Applies(sys.doc, Files(), Lose(k))
      modifies `nodes, `writes, `attempts, `run
      ensures At(ok) == Perform(sys.doc, old(At(true)), Lose(k))
    {
      ok := PutAttempt(k, attempts[k].(phase := Completed, conclusion := Indeterminate));
      if !ok { return; }
      ok := PutNode(k.node, nodes[k.node].(phase := Completed, conclusion := Indeterminate, reason := NoReason));
      if !ok { return; }
      ok := PutRun(run.(phase := RunRunning, reason := NoReason, conclusion := NoConclusion));
    }

    method HoldWaiting(k: Key, why: Reason, questions: Option<Output>) returns (ok: bool)
      requires Applies(sys.doc, Files(), Hold(k, why, questions))
      modifies `nodes, `writes, `attempts, `run
      ensures At(ok) == Perform(sys.doc, old(At(true)), Hold(k, why, questions))
    {
      var attempt, node := attempts[k].(phase := Waiting, reason := why), nodes[k.node].(phase := Waiting, reason := why);
      if questions.Some? { attempt, node := attempt.(consumed := true), node.(result := questions); }
      var after, _ := AggregateRunState(run, sys.doc, nodes[k.node := node]);
      ok := PutNode(k.node, node);
      if !ok { return; }
      ok := PutAttempt(k, attempt);
      if !ok { return; }
      ok := PutRun(after);
    }

    method RecordAnswer(k: Key, confirmed: bool) returns (ok: bool)
      requires Applies(sys.doc, Files(), Confirm(k))
      modifies `nodes, `writes, `attempts
      ensures At(ok) == Perform(sys.doc, old(At(true)), if confirmed then Confirm(k) else Refuse(k))
    {
      var attempt, node := attempts[k], nodes[k.node];
      if confirmed {
        attempt := attempt.(phase := Completed, conclusion := Cancelled, reason := UserRequested);
        node := node.(phase := Completed, conclusion := Cancelled, reason := UserRequested);
      } else {
        attempt := attempt.(phase := Waiting, conclusion := NoConclusion, reason := CancelFailed);
        node := node.(phase := Waiting, conclusion := NoConclusion, reason := CancelFailed);
      }
      ok := PutNode(k.node, node);
      if !ok { return; }
      ok := PutAttempt(k, attempt);
    }

    // ----- the controller -----

    predicate CanMutate()
      reads this
      ensures CanMutate() == Mutable(Now())
    {
      && stage != Off && !stopping && !run.cancelRequested
      && run.phase != Paused && run.phase != Cancelling && run.phase != RunCompleted
    }

    predicate AllJoined()
      reads this
      ensures AllJoined() == Joined(Now())
    {
      forall k :: k in flights ==> flights[k].Landed?
    }

    method EndControl()
      modifies `stage, `flights, `stopping
      ensures Now() == Halt(old(Now()))
    {
      stage, flights, stopping := Off, map[], false;
    }

    /** Takes up the run. Recovery rewrites the run's file only if it was paused. */
    method StartController(rewrite: bool, faultAfter: nat)
      requires Valid()
      modifies this
      ensures Valid() && Now() == DoStartControl(old(Now()), rewrite, faultAfter)
    {
      hide Inv;
      StartControlKeeps(sys, Now(), rewrite, faultAfter);
      if stage != Off || canceller != NoCancel || run.phase == RunCompleted || run.cancelRequested { return; }
      writes := faultAfter;
      var ok := true;
      if rewrite || run.phase == Paused { ok := PutRun(run.(phase := RunRunning, conclusion := NoConclusion, reason := NoReason)); }
      if ok { stage, flights, stopping, torn, abandoned := Idle, map[], false, false, false; }
    }

    /** Leaves the run waiting, or paused, after an error, and ends the controller. */
    method PauseOnError(paused: bool, faultAfter: nat)
      requires Valid()
      modifies this
      ensures Valid() && Now() == DoFailControl(old(Now()), paused, faultAfter)
    {
      hide Inv;
      FailControlKeeps(sys, Now(), paused, faultAfter);
      if stage == Off || stage.Recovering? || !AllJoined() { return; }
      if CanMutate() {
        writes := faultAfter;
        if paused {
          var _ := PutRun(run.(phase := Paused, conclusion := NoConclusion, reason := ControllerDetach));
        } else {
          var _ := PutRun(run.(phase := RunWaiting, reason := CompletionMissing));
        }
      }
      EndControl();
    }

    method FindActiveAttempts() returns (active: seq<Key>)
      ensures active == ActiveKeys(nodes)
    {
      active := [];
      var i := 0;
      while i < |nodes|
        invariant 0 <= i <= |nodes| && active == ActiveKeys(nodes[..i])
      {
        assert nodes[..i + 1][..i] == nodes[..i];
        if Active(nodes[i]) { active := active + [Key(i, nodes[i].attempt)]; }
        i := i + 1;
      }
      assert nodes[..i] == nodes;
    }

    method StartReconcile()
      requires Valid()
      modifies this
      ensures Valid() && Now() == DoBeginReconcile(old(Now()))
    {
      hide Inv;
      BeginReconcileKeeps(sys, Now());
      if stage != Idle { return; }
      if run.phase == RunCompleted || run.cancelRequested { EndControl(); return; }
      var refs := FindActiveAttempts();
      if refs != [] { stage := Observing(refs, map[], 0); }
    }

    /** One observation, without the mutex. The backend is asked only for an attempt with a handle. */
    method ObserveAttempt(k: Key, seen: Observation)
      requires Valid() && stage.Observing? && k in stage.refs && k !in stage.verdicts
      requires seen.Stalled? ==> seen.why in {AgentWaitingInput, CompletionMissing, InvalidResult}
      modifies this
      ensures Valid() && Now() == DoObserve(old(Now()), k, seen)
    {
      hide Inv;
      ObserveKeeps(sys, Now(), k, seen);
      ObservedOnDisk(sys, Now(), k);
      var a := attempts[k];
      var verdict := Report(seen);
      if a.consumed && a.phase == Waiting && a.reason == AgentWaitingInput {
        verdict := AlreadySettled;
      } else if seen == NoDriver {
        verdict := Report(NoDriver);
      } else if !a.handle {
        verdict := Missing;
      }
      if verdict == Report(Gone) { past := past.(gone := past.gone + {k}); }
      stage := stage.(verdicts := stage.verdicts[k := verdict]);
    }

    /** Writes what one observation means for its attempt. */
    method WriteVerdict(k: Key, verdict: Verdict) returns (ok: bool)
      requires EditFor(k, verdict).Some? && Applies(sys.doc, Files(), EditFor(k, verdict).value)
      modifies `nodes, `writes, `attempts, `run
      ensures At(ok) == Perform(sys.doc, old(At(true)), EditFor(k, verdict).value)
    {
      hide Perform;
      if verdict == Missing || verdict == Report(Gone) {
        ok := FinishIndeterminate(k);
      } else if verdict.observation.Delivered? {
        ok := FinishResult(k, if verdict.observation.succeeded then Succeeded else Failed, verdict.observation.output);
      } else if verdict.observation.Questions? {
        ok := HoldWaiting(k, AgentWaitingInput, Some(verdict.observation.asked));
      } else if verdict.observation.NoDriver? {
        ok := HoldWaiting(k, CompletionMissing, None);
      } else {
        ok := HoldWaiting(k, verdict.observation.why, None);
      }
    }

    /** Settles the next observation: nothing for a live attempt, a loss for a missing handle. */
    method SettleNext(faultAfter: nat)
      requires Valid() && stage.Observing? && stage.settled < |stage.refs| && AllObserved(stage)
      modifies this
      ensures Valid() && Now() == DoSettle(sys, old(Now()), faultAfter)
    {
      hide Inv, Perform, Applies, Mutable;
      SettleKeeps(sys, Now(), faultAfter);
      SettleFacts(sys, Now());
      var k := stage.refs[stage.settled];
      var verdict := stage.verdicts[k];
      if verdict == AlreadySettled || verdict == Report(StillActive) {
        stage := stage.(settled := stage.settled + 1);
        return;
      }
      if !CanMutate() { EndControl(); return; }
      writes := faultAfter;
      var ok := WriteVerdict(k, verdict);
      stage := if ok then stage.(settled := stage.settled + 1) else Failing;
    }

    // ----- scheduling -----

    method SkipAll(ids: seq<NodeId>, reason: Reason) returns (ok: bool)
      requires AllApply(sys.doc, Files(), Drops(ids, reason))
      modifies `nodes, `writes
      ensures At(ok) == PerformAll(sys.doc, old(At(true)), Drops(ids, reason))
    {
      ghost var es, p := Drops(ids, reason), At(true);
      var i := 0;
      assert es[0..] == es;
      while i < |ids|
        invariant 0 <= i <= |ids| && AllApply(sys.doc, Files(), es[i..])
        invariant PerformAll(sys.doc, p, es) == PerformAll(sys.doc, At(true), es[i..])
      {
        NextEdit(sys.doc, At(true), es, i);
        ok := SkipNode(ids[i], reason);
        if !ok {
          FaultsStay(sys.doc, At(false), es[i + 1..]);
          return;
        }
        i := i + 1;
      }
      return true;
    }

    method AskAll(ids: seq<NodeId>) returns (ok: bool)
      requires AllApply(sys.doc, Files(), Asks(ids))
      modifies `nodes, `writes
      ensures At(ok) == PerformAll(sys.doc, old(At(true)), Asks(ids))
    {
      ghost var es, p := Asks(ids), At(true);
      var i := 0;
      assert es[0..] == es;
      while i < |ids|
        invariant 0 <= i <= |ids| && AllApply(sys.doc, Files(), es[i..])
        invariant PerformAll(sys.doc, p, es) == PerformAll(sys.doc, At(true), es[i..])
      {
        NextEdit(sys.doc, At(true), es, i);
        ok := AskApproval(ids[i]);
        if !ok {
          FaultsStay(sys.doc, At(false), es[i + 1..]);
          return;
        }
        i := i + 1;
      }
      return true;
    }

    method AssignAll(ids: seq<NodeId>) returns (ok: bool)
      requires AllApply(sys.doc, Files(), Assigns(ids))
      modifies `nodes, `writes, `attempts, `run
      ensures At(ok) == PerformAll(sys.doc, old(At(true)), Assigns(ids))
    {
      ghost var es, p := Assigns(ids), At(true);
      var i := 0;
      assert es[0..] == es;
      while i < |ids|
        invariant 0 <= i <= |ids| && AllApply(sys.doc, Files(), es[i..])
        invariant PerformAll(sys.doc, p, es) == PerformAll(sys.doc, At(true), es[i..])
      {
        NextEdit(sys.doc, At(true), es, i);
        ok := AssignAgent(ids[i]);
        if !ok {
          FaultsStay(sys.doc, At(false), es[i + 1..]);
          return;
        }
        i := i + 1;
      }
      return true;
    }

    /** Writes a decision: skips for each reason, then approvals, then assignments. */
    method WriteDecision(d: Decision) returns (ok: bool)
      requires AllApply(sys.doc, Files(), EditsOf(d))
      modifies `nodes, `writes, `attempts, `run
      ensures At(ok) == PerformAll(sys.doc, old(At(true)), EditsOf(d))
    {
      hide AllApply, PerformAll, EditsOf;
      DecisionInParts(sys.doc, At(true), d);
      ok := SkipAll(d.skipUpstream, UpstreamFailed);
      if ok { ok := SkipAll(d.skipConditions, ConditionFalse); }
      if ok { ok := SkipAll(d.skipFailurePolicy, FailurePolicy); }
      if ok { ok := AskAll(d.readyApprovals); }
      if ok { ok := AssignAll(d.readyAgents); }
    }

    method ScheduleBatch(limit: nat, faultAfter: nat)
      requires Valid() && stage == Idle
      modifies this
      ensures Valid() && Now() == DoSchedule(sys, old(Now()), limit, faultAfter)
    {
      hide Inv, PerformAll, AllApply, Plan, EditsOf, Aggregate, AllLegal, Apart, Mutable;
      ScheduleKeeps(sys, Now(), limit, faultAfter);
      NodesSound(sys, Now());
      if !CanMutate() { EndControl(); return; }
      var plan := PlanSchedule(sys.doc, run.conclusion, nodes, limit);
      if plan.Err? { stage := Failing; return; }
      DecisionLegal(sys, Files(), limit, past.gone);
      writes := faultAfter;
      var ok := WriteDecision(plan.value);
      if !ok { stage := Failing; return; }
      if plan.value.readyAgents != [] {
        stage, flights := Launching, NewFlights(nodes, plan.value.readyAgents);
        return;
      }
      var after, _ := AggregateRunState(run, sys.doc, nodes);
      if after != run {
        ok := PutRun(after);
        if !ok { stage := Failing; }
      }
    }

    // ----- launching -----

    /** The launcher's last look before dispatching, under the mutex. */
    method BeginBackendLaunch(k: Key, faultAfter: nat) returns (dispatched: bool)
      requires Valid() && k in flights && flights[k] == Queued
      modifies this
      ensures Valid() && Now() == DoBegin(old(Now()), k, faultAfter)
      ensures dispatched == (flights[k] == Begun)
    {
      hide Inv;
      BeginKeeps(sys, Now(), k, faultAfter);
      FlightOnDisk(sys, Now(), k);
      dispatched := false;
      if !stopping && !run.cancelRequested && run.phase != Cancelling && run.phase != RunCompleted {
        writes := faultAfter;
        dispatched := PutAttempt(k, attempts[k].(launch := Dispatching));
      }
      flights := flights[k := if dispatched then Begun else Landed(false, true)];
    }

    method DriverLost(k: Key)
      requires Valid() && k in flights && flights[k] == Begun
      modifies this
      ensures Valid() && Now() == DoLoseDriver(old(Now()), k)
    {
      hide Inv;
      LoseDriverKeeps(sys, Now(), k);
      flights := flights[k := Landed(false, true)];
    }

    /** The call to the backend's Start, with whatever it answers. */
    method StartCalled(k: Key, handle: bool, failed: bool)
      requires Valid() && k in flights && flights[k] == Begun
      modifies this
      ensures Valid() && Now() == DoCallStart(old(Now()), k, handle, failed)
    {
      hide Inv;
      CallStartKeeps(sys, Now(), k, handle, failed);
      past := past.(started := past.started + multiset{k});
      flights := flights[k := Called(handle, failed)];
    }

    /** Saves the handle, or that there is none. */
    method PersistLaunch(k: Key, faultAfter: nat)
      requires Valid() && k in flights && flights[k].Called?
      modifies this
      ensures Valid() && Now() == DoLand(old(Now()), k, faultAfter)
    {
      hide Inv;
      LandKeeps(sys, Now(), k, faultAfter);
      FlightOnDisk(sys, Now(), k);
      var flight, ok := flights[k], true;
      if flight.handle {
        writes := faultAfter;
        ok := PutAttempt(k, attempts[k].(launch := HandlePersisted, handle := true));
      } else if !attempts[k].handle {
        writes := faultAfter;
        ok := PutAttempt(k, attempts[k].(launch := FinishedWithoutHandle));
      }
      flights := flights[k := Landed(flight.handle, flight.failed || !ok)];
    }

    /** Records one launch's outcome once all launchers have joined. */
    method RecordLaunch(k: Key, faultAfter: nat)
      requires Valid() && stage == Launching && k in flights && AllJoined()
      modifies this
      ensures Valid() && Now() == DoResolve(sys, old(Now()), k, faultAfter)
    {
      hide Inv, Perform, Applies, Mutable;
      ResolveKeeps(sys, Now(), k, faultAfter);
      FlightApplies(sys, Now(), k);
      var flight := flights[k];
      if flight.handle && !flight.failed {
        flights := flights - {k};
        return;
      }
      if !CanMutate() { EndControl(); return; }
      writes := faultAfter;
      var ok;
      if flight.handle {
        ok := HoldWaiting(k, CompletionMissing, None);
      } else {
        ok := FinishIndeterminate(k);
      }
      if ok { flights := flights - {k}; } else { flights, stage := map[], Failing; }
    }

    // ----- cancelling -----

    method FindTargets(active: seq<Key>) returns (targets: seq<Key>)
      ensures targets == Targets(Files(), active)
    {
      targets := [];
      var i := 0;
      while i < |active|
        invariant 0 <= i <= |active| && targets == Targets(Files(), active[..i])
      {
        assert active[..i + 1][..i] == active[..i];
        var k := active[i];
        if !(k in attempts && attempts[k].phase == Completed && attempts[k].conclusion == Cancelled) { targets := targets + [k]; }
        i := i + 1;
      }
      assert active[..i] == active;
    }

    /** Puts the cancellation on disk, unless it is there. */
    method PutMark() returns (ok: bool)
      modifies `run, `writes
      ensures At(ok) == MarkRun(old(At(true)))
    {
      if run.cancelRequested && run.phase == Cancelling { return true; }
      ok := PutRun(run.(cancelRequested := true, phase := Cancelling, conclusion := NoConclusion, reason := NoReason));
    }

    /** Puts the cancellation on disk, and lists what it must settle, in one section. */
    method MarkCancellation(faultAfter: nat)
      requires Valid()
      modifies this
      ensures Valid() && Now() == DoMarkCancel(old(Now()), faultAfter)
    {
      hide Inv, Targets, ActiveKeys;
      MarkCancelKeeps(sys, Now(), faultAfter);
      if canceller != NoCancel || (stage != Off && stopping) || run.phase == RunCompleted { return; }
      writes := faultAfter;
      var ok := PutMark();
      if !ok {
        stopping := stage != Off;
        return;
      }
      torn := false;
      var active := FindActiveAttempts();
      var targets := FindTargets(active);
      canceller := Polling(targets, map k | k in targets :: Unasked);
    }

    /** One look for a target's handle, without the mutex. */
    method LookForHandle(k: Key, expired: bool)
      requires Valid() && canceller.Polling? && k in canceller.polls && canceller.polls[k] == Unasked
      modifies this
      ensures Valid() && Now() == DoPollTarget(old(Now()), k, expired)
    {
      hide Inv;
      PollTargetKeeps(sys, Now(), k, expired);
      PolledOnDisk(sys, Now(), k);
      var a, poll := attempts[k], Unasked;
      if a.handle {
        if a.phase == Completed {
          if a.conclusion != Cancelled { spared := spared + {k}; }
          poll := Answered(true);
        } else {
          poll := Holding;
        }
      } else {
        match a.launch {
          case Prepared => poll := Answered(true);
          case Dispatching => if expired { poll := Answered(false); }
          case HandlePersisted => poll := Answered(false);
          case FinishedWithoutHandle => poll := Answered(false);
        }
      }
      canceller := canceller.(polls := canceller.polls[k := poll]);
    }

    /** The call to the backend's Cancel, with its answer. */
    method CancelCalled(k: Key, answer: bool)
      requires Valid() && canceller.Polling? && k in canceller.polls && canceller.polls[k] == Holding
      modifies this
      ensures Valid() && Now() == DoCancelBackend(old(Now()), k, answer)
    {
      hide Inv;
      CancelBackendKeeps(sys, Now(), k, answer);
      if answer { confirmed := confirmed + {k}; }
      canceller := canceller.(polls := canceller.polls[k := Answered(answer)]);
    }

    method RecordAnswers(c: Canceller) returns (ok: bool, unresolved: bool)
      requires c.Polling? && AllApply(sys.doc, Files(), CancelEdits(c))
      modifies `nodes, `writes, `attempts
      ensures At(ok) == PerformAll(sys.doc, old(At(true)), CancelEdits(c))
      ensures ok ==> unresolved == !AllConfirmed(c)
    {
      hide Perform, PerformAll, AllApply;
      ghost var es, p := CancelEdits(c), At(true);
      var i := 0;
      unresolved := false;
      assert es[0..] == es;
      while i < |c.targets|
        invariant 0 <= i <= |c.targets| && AllApply(sys.doc, Files(), es[i..])
        invariant PerformAll(sys.doc, p, es) == PerformAll(sys.doc, At(true), es[i..])
        invariant unresolved <==> exists k :: k in c.targets[..i] && !(k in c.polls && c.polls[k] == Answered(true))
      {
        var k := c.targets[i];
        var answer := k in c.polls && c.polls[k] == Answered(true);
        NextEdit(sys.doc, At(true), es, i);
        assert c.targets[..i + 1] == c.targets[..i] + [k];
        ok := RecordAnswer(k, answer);
        if !ok {
          FaultsStay(sys.doc, At(false), es[i + 1..]);
          return;
        }
        if !answer { unresolved := true; }
        i := i + 1;
      }
      assert c.targets[..i] == c.targets;
      NoEditsLeft(sys.doc, At(true), es, i);
      ok := true;
    }

    /** Skips, in topological order, every node that has not started and every waiting approval. */
    method SkipLeftovers() returns (ok: bool)
      requires AllApply(sys.doc, Files(), Drops(Leftovers(nodes), WorkflowCancelled))
      modifies `nodes, `writes
      ensures At(ok) == PerformAll(sys.doc, old(At(true)), Drops(Leftovers(old(nodes)), WorkflowCancelled))
    {
      ghost var doc, p, all := sys.doc, At(true), Leftovers(nodes);
      ghost var left := all;
      var i := 0;
      LeftoversFromStart(nodes);
      assert |nodes| == |doc.nodes|;
      hide AllApply, PerformAll, Leftovers;
      while i < |nodes|
        invariant 0 <= i <= |nodes| == |p.disk.nodes| && left == LeftoversFrom(p.disk.nodes, i)
        invariant forall j :: i <= j < |nodes| ==> nodes[j] == p.disk.nodes[j]
        invariant AllApply(doc, Files(), Drops(left, WorkflowCancelled))
        invariant PerformAll(doc, p, Drops(all, WorkflowCancelled)) == PerformAll(doc, At(true), Drops(left, WorkflowCancelled))
      {
        if Leftover(nodes[i]) {
          NextDrop(doc, At(true), left);
          ok := SkipNode(i, WorkflowCancelled);
          if !ok {
            FaultsStay(doc, At(false), Drops(left[1..], WorkflowCancelled));
            return;
          }
          left := left[1..];
        }
        i := i + 1;
      }
      NoDrops(doc, At(true), left);
      ok := true;
    }

    method WriteOutcomes() returns (ok: bool)
      requires Valid() && canceller.Polling? && AllApply(sys.doc, Files(), CancelEdits(canceller))
      modifies `nodes, `writes, `attempts, `run
      ensures At(ok) == CancelWrites(sys, old(Now()), old(writes))
    {
      hide Inv, AllApply, PerformAll, Leftovers, CancelEdits, AllConfirmed;
      CancelFacts(sys, Now(), writes);
      var unresolved;
      ok, unresolved := RecordAnswers(canceller);
      if ok && unresolved {
        ok := PutRun(run.(cancelRequested := true, phase := RunWaiting, conclusion := NoConclusion, reason := CancelFailed));
      } else if ok {
        ok := SkipLeftovers();
        if ok {
          ok := PutRun(run.(cancelRequested := true, phase := RunCompleted, conclusion := Cancelled, reason := UserRequested));
        }
      }
    }

    /** Records the answers; with every target confirmed, skips the rest and completes the run. */
    method ApplyOutcomes(faultAfter: nat)
      requires Valid() && canceller.Polling? && AllAnswered(canceller)
      modifies this
      ensures Valid() && Now() == DoApplyCancel(sys, old(Now()), faultAfter)
    {
      hide Inv, AllApply, CancelEdits, CancelWrites, AllAnswered, LeftAtWork;
      ApplyCancelKeeps(sys, Now(), faultAfter);
      CancelFacts(sys, Now(), faultAfter);
      if run.phase != RunCompleted {
        ghost var left := LeftAtWork(nodes, canceller.targets);
        writes := faultAfter;
        var _ := WriteOutcomes();
        if run.phase == RunCompleted { abandoned := left; }
      }
      canceller, stopping := NoCancel, stage != Off;
    }

    // ----- a cancellation taken up again after a restart -----

    /** Takes up the cancellation of a run that nobody works on. */
    method StartRecoveryController(faultAfter: nat)
      requires Valid()
      modifies this
      ensures Valid() && Now() == DoStartRecovery(old(Now()), faultAfter)
    {
      hide Inv;
      StartRecoveryKeeps(sys, Now(), faultAfter);
      if stage != Off || canceller != NoCancel || run.phase == RunCompleted || !run.cancelRequested { return; }
      if run.phase == RunWaiting && run.reason == ApprovalRequired { return; }
      writes := faultAfter;
      var ok := true;
      if run.phase == Paused { ok := PutRun(run.(phase := RunRunning, conclusion := NoConclusion, reason := NoReason)); }
      if ok { stage, flights, stopping, torn := Recovering(Unmarked), map[], false, false; }
    }

    method FindFirstAtWork() returns (first: Option<NodeId>)
      ensures first == FirstAtWork(nodes, 0)
    {
      var i := 0;
      while i < |nodes|
        invariant 0 <= i <= |nodes| && FirstAtWork(nodes, 0) == FirstAtWork(nodes, i)
      {
        if AtWork(nodes[i]) { return Some(i); }
        i := i + 1;
      }
      return None;
    }

    /** Marks the run again, and picks the first node at work. */
    method HandleCancellationRequest(faultAfter: nat)
      requires Valid() && stage == Recovering(Unmarked)
      modifies this
      ensures Valid() && Now() == DoRecoverMark(old(Now()), faultAfter)
    {
      hide Inv, FirstAtWork;
      RecoverMarkKeeps(sys, Now(), faultAfter);
      if run.phase == RunCompleted { stage := Recovering(Ending(None)); return; }
      writes := faultAfter;
      var ok := PutMark();
      if !ok { EndControl(); return; }
      var first := FindFirstAtWork();
      FirstIsAtWork(nodes, 0);
      if first.None? { stage := Recovering(Ending(None)); } else { stage := Recovering(Looking(Key(first.value, nodes[first.value].attempt))); }
    }

    /** One look for the handle of the attempt in hand, without the mutex. */
    method LookAgain(expired: bool)
      requires Valid() && stage.Recovering? && stage.progress.Looking?
      modifies this
      ensures Valid() && Now() == DoRecoverLook(old(Now()), expired)
    {
      hide Inv;
      RecoverStepKeeps(sys, Now(), RecoverLook(expired));
      InHandOnDisk(sys, Now());
      var k := stage.progress.k;
      var a, next := attempts[k], Looking(k);
      if a.handle {
        next := if a.phase == Completed && a.conclusion == Cancelled then Ending(Some(k)) else Asking(k);
      } else {
        match a.launch {
          case Prepared => next := Ending(Some(k));
          case Dispatching => if expired { next := Refusing; }
          case HandlePersisted => next := Refusing;
          case FinishedWithoutHandle => next := Refusing;
        }
      }
      stage := Recovering(next);
    }

    /** The driver is gone, or the controller was stopped meanwhile. */
    method GiveUpRecovery()
      requires Valid() && stage.Recovering? && (stage.progress.Looking? || stage.progress.Asking?)
      modifies this
      ensures Valid() && Now() == DoRecoverGiveUp(old(Now()))
    {
      hide Inv;
      RecoverStepKeeps(sys, Now(), RecoverGiveUp);
      stage := Recovering(Refusing);
    }

    /** The call to the backend's Cancel for the attempt in hand. */
    method AskAgain(answer: bool)
      requires Valid() && stage.Recovering? && stage.progress.Asking?
      modifies this
      ensures Valid() && Now() == DoRecoverAsk(old(Now()), answer)
    {
      hide Inv;
      RecoverStepKeeps(sys, Now(), RecoverAsk(answer));
      var k := stage.progress.k;
      if answer { confirmed := confirmed + {k}; }
      stage := Recovering(if answer then Ending(Some(k)) else Refusing);
    }

    /** Concludes one attempt and then its node. */
    method ConcludeCancelled(k: Key) returns (ok: bool)
      requires Applies(sys.doc, Files(), Conclude(k))
      modifies `nodes, `writes, `attempts
      ensures At(ok) == Perform(sys.doc, old(At(true)), Conclude(k))
    {
      var a, n := attempts[k], nodes[k.node];
      if a.phase != Completed || a.conclusion != Cancelled {
        ok := PutAttempt(k, a.(phase := Completed, conclusion := Cancelled, reason := UserRequested));
        if !ok { return; }
      }
      ok := PutNode(k.node, n.(phase := Completed, conclusion := Cancelled, reason := UserRequested));
    }

    method WriteRecovered(first: Option<Key>) returns (ok: bool)
      requires Valid() && stage == Recovering(Ending(first)) && run.phase != RunCompleted
      requires |nodes| == |sys.doc.nodes| && (first.Some? ==> Applies(sys.doc, Files(), Conclude(first.value)))
      modifies `nodes, `writes, `attempts, `run
      ensures At(ok) == RecoveryWrites(sys, old(Now()), first, old(writes))
    {
      hide Inv, AllApply, Applies, PerformAll, Leftovers, Perform;
      RecoveryFacts(sys, Now(), first, writes);
      ok := true;
      if first.Some? { ok := ConcludeCancelled(first.value); }
      if ok {
        ok := SkipLeftovers();
        if ok {
          ok := PutRun(run.(cancelRequested := true, phase := RunCompleted, conclusion := Cancelled, reason := UserRequested));
        }
      }
    }

    /** Concludes the attempt in hand, skips the rest and completes the run; or records that
        the cancellation failed. Either way its controller ends. */
    method FinalizeCancellation(faultAfter: nat)
      requires Valid() && stage.Recovering? && (stage.progress.Ending? || stage.progress.Refusing?)
      modifies this
      ensures Valid() && Now() == DoRecoverEnd(sys, old(Now()), faultAfter)
    {
      hide Inv, Applies, RecoveryWrites, LeftAtWork;
      RecoverEndKeeps(sys, Now(), faultAfter);
      if stage.progress.Refusing? {
        writes := faultAfter;
        var _ := PutRun(run.(cancelRequested := true, phase := RunWaiting, conclusion := NoConclusion, reason := CancelFailed));
      } else if run.phase != RunCompleted {
        var first := stage.progress.first;
        RecoveryFacts(sys, Now(), first, faultAfter);
        ghost var left := LeftAtWork(nodes, KeysOf(first));
        writes := faultAfter;
        var _ := WriteRecovered(first);
        if run.phase == RunCompleted { abandoned := left; }
      }
      EndControl();
    }

    // ----- a person's action -----

    /** Resets the skipped nodes below a node, one write each. */
    method ResetDownstream(i: NodeId) returns (ok: bool)
      requires Fits(sys.doc, nodes) && i < |nodes|
      modifies `nodes, `writes
      ensures At(ok) == ResetWrites(sys.doc, old(At(true)), i, |old(nodes)|)
    {
      var below := SweepDownstream(sys.doc, i);
      var count := |nodes|;
      ghost var p := At(true);
      var j := 0;
      while j < count
        invariant 0 <= j <= count == |nodes| && At(true) == ResetWrites(sys.doc, p, i, j)
      {
        if j in below && nodes[j].phase == Skipped {
          ok := PutNode(j, Reset(nodes[j]));
          if !ok {
            ResetsStop(sys.doc, p, i, j + 1, count);
            return;
          }
        }
        j := j + 1;
      }
      return true;
    }

    /** A decision, a retry or an answer, on a run that nothing else holds: its target, the
        skipped nodes below it, and the run, until a write fails. A decision that repeats the
        recorded one writes the run only, unless the run is completed. */
    method ApplyAction(action: Action, faultAfter: nat) returns (accepted: bool)
      requires Valid()
      modifies this
      ensures Valid() && Now() == DoAct(sys, old(Now()), action, faultAfter)
      ensures accepted == (Allowed(old(Now()), action) || AllowedAgain(old(Now()), action))
    {
      hide Inv, ResetWrites;
      ActKeeps(sys, Now(), action, faultAfter);
      NodesSound(sys, Now());
      AcceptedPerNode(sys, Now());
      if stage != Off || canceller != NoCancel || action.i >= |nodes| { return false; }
      var i, n := action.i, nodes[action.i];
      match action {
        case Decide(_, approved, why) =>
          var decision := TextOf(n, DECISION);
          if decision != "" {
            if decision != Word(approved) || TextOf(n, REASON) != why || run.phase == RunCompleted { return false; }
            writes := faultAfter;
            var _ := PutRun(Reopened(run));
            return true;
          }
          if !WaitingApproval(n) || n.reason != ApprovalRequired { return false; }
          n := n.(phase := Completed, result := Some(Decided(approved, why)), reason := NoReason);
          n := n.(conclusion := if approved then Succeeded else Rejected);
        case Retry(_, acknowledged) =>
          var retryable := n.phase == Waiting && n.reason in {AgentWaitingInput, CompletionMissing, InvalidResult};
          retryable := retryable || (n.phase == Completed && n.conclusion in {Failed, Indeterminate});
          if !retryable || n.attempt < 1 || (n.conclusion == Indeterminate && !acknowledged) { return false; }
          n := n.(phase := Ready, conclusion := NoConclusion, reason := NoReason, result := None);
        case Answer(_, attempt) =>
          if n.kind != Agent || n.phase != Waiting || n.reason != AgentWaitingInput || n.result.None? || !n.result.value.questions { return false; }
          if attempt != n.attempt { return false; }
          n := n.(phase := Ready, conclusion := NoConclusion, reason := NoReason, result := None);
      }
      WriteAction(action, n, faultAfter);
      return true;
    }

    method WriteFiles(action: Action, n: Node) returns (ok: bool)
      requires Fits(sys.doc, nodes) && action.i < |nodes| && Takes(nodes, action) && n == Target(nodes[action.i], action)
      modifies `nodes, `writes, `run
      ensures At(ok) == WriteRun(ActWrites(sys.doc, old(At(true)), action), Reopened(old(run)))
    {
      hide ResetWrites, Target, Takes;
      ok := PutNode(action.i, n);
      if ok {
        if !action.Decide? { ok := ResetDownstream(action.i); }
      } else {
        ResetsStopped(sys.doc, At(false), action.i, |nodes|);
      }
      if ok { ok := PutRun(Reopened(run)); }
    }

    method WriteAction(action: Action, n: Node, faultAfter: nat)
      requires Fits(sys.doc, nodes) && Allowed(Now(), action) && action.i < |nodes| == |past.accepted| && n == Target(nodes[action.i], action)
      modifies this
      ensures Now() == DoAct(sys, old(Now()), action, faultAfter)
    {
      NotRepeated(nodes, action);
      hide ActWrites, Target, Takes, Repeats, Fits, Reopened;
      writes := faultAfter;
      var ok := WriteFiles(action, n);
      past := if action.Decide? || faultAfter == 0 then past else past.(accepted := past.accepted[action.i := past.accepted[action.i] + 1]);
      torn := !ok && (torn || faultAfter > 0);
    }
  }

  lemma {:induction false} ResetsStopped(doc: Document, p: Progress, i: NodeId, n: nat)
    requires Fits(doc, p.disk.nodes) && n <= |p.disk.nodes| && !p.ok
    ensures ResetWrites(doc, p, i, n) == p
  {
    if n > 0 { ResetsStopped(doc, p, i, n - 1); }
  }

  /** Once a reset fails nothing more is written. */
  lemma {:induction false} ResetsStop(doc: Document, p: Progress, i: NodeId, m: nat, n: nat)
    requires Fits(doc, p.disk.nodes) && m <= n <= |p.disk.nodes| && !ResetWrites(doc, p, i, m).ok
    ensures ResetWrites(doc, p, i, n) == ResetWrites(doc, p, i, m)
  {
    if m < n { ResetsStop(doc, p, i, m, n - 1); }
  }

  function LeftoversFrom(nodes: seq<Node>, i: nat): seq<NodeId>
    requires i <= |nodes|
    decreases |nodes| - i
  {
    if i == |nodes| then [] else (if Leftover(nodes[i]) then [i] else []) + LeftoversFrom(nodes, i + 1)
  }

  lemma {:induction false} LeftoversSplit(nodes: seq<Node>, i: nat)
    requires i <= |nodes|
    ensures Leftovers(nodes) == Leftovers(nodes[..i]) + LeftoversFrom(nodes, i)
    decreases |nodes| - i
  {
    if i == |nodes| {
      assert nodes[..i] == nodes;
    } else {
      LeftoversSplit(nodes, i + 1);
      hide Leftover;
      var now, rest := if Leftover(nodes[i]) then [i] else [], LeftoversFrom(nodes, i + 1);
      assert nodes[..i + 1][..i] == nodes[..i];
      assert Leftovers(nodes[..i + 1]) == Leftovers(nodes[..i]) + now && LeftoversFrom(nodes, i) == now + rest;
      hide Leftovers, LeftoversFrom;
      assert Leftovers(nodes[..i]) + now + rest == Leftovers(nodes[..i]) + (now + rest);
    }
  }

  lemma LeftoversFromStart(nodes: seq<Node>)
    ensures Leftovers(nodes) == LeftoversFrom(nodes, 0)
  {
    LeftoversSplit(nodes, 0);
    assert nodes[..0] == [] && Leftovers([]) == [];
  }

  lemma NoEditsLeft(doc: Document, p: Progress, es: seq<Edit>, i: nat)
    requires i == |es| && AllApply(doc, p.disk, es[i..])
    ensures PerformAll(doc, p, es[i..]) == p
  {
  }

  lemma NoDrops(doc: Document, p: Progress, ids: seq<NodeId>)
    requires ids == [] && |p.disk.nodes| == |doc.nodes|
    ensures PerformAll(doc, p, Drops(ids, WorkflowCancelled)) == p
  {
  }

  lemma NextDrop(doc: Document, p: Progress, ids: seq<NodeId>)
    requires ids != [] && AllApply(doc, p.disk, Drops(ids, WorkflowCancelled))
    ensures Applies(doc, p.disk, Drop(ids[0], WorkflowCancelled))
    ensures
      var q := Perform(doc, p, Drop(ids[0], WorkflowCancelled));
      AllApply(doc, q.disk, Drops(ids[1..], WorkflowCancelled))
      && PerformAll(doc, p, Drops(ids, WorkflowCancelled)) == PerformAll(doc, q, Drops(ids[1..], WorkflowCancelled))
  {
    var es := Drops(ids, WorkflowCancelled);
    assert es[0..] == es && es[1..] == Drops(ids[1..], WorkflowCancelled);
    NextEdit(doc, p, es, 0);
  }

  lemma FlightOnDisk(sys: System, s: State, k: Key)
    requires Inv(sys, s) && k in s.flights
    ensures k in s.disk.attempts
  {
    assert FlightOk(s, k);
  }

  lemma FlightApplies(sys: System, s: State, k: Key)
    requires Inv(sys, s) && k in s.flights
    ensures Applies(sys.doc, s.disk, Lose(k)) && Applies(sys.doc, s.disk, Hold(k, CompletionMissing, None))
  {
    assert FlightOk(s, k);
  }

  lemma PolledOnDisk(sys: System, s: State, k: Key)
    requires Inv(sys, s) && s.canceller.Polling? && k in s.canceller.polls
    ensures k in s.disk.attempts
  {
    hide DiskOk, FlightsOk;
    assert k in s.canceller.targets && AtHand(s.disk, k);
  }

  lemma AcceptedPerNode(sys: System, s: State)
    requires Inv(sys, s)
    ensures |s.past.accepted| == |s.disk.nodes|
  {
  }

  /** A decision that fits its node repeats none. */
  lemma NotRepeated(nodes: seq<Node>, action: Action)
    requires Takes(nodes, action)
    ensures !Repeats(nodes, action)
  {
  }

  lemma InHandOnDisk(sys: System, s: State)
    requires Inv(sys, s) && InHand(s.stage).Some?
    ensures InHand(s.stage).value in s.disk.attempts
  {
  }

  /** What recovery's last writes may rely on. */
  lemma RecoveryFacts(sys: System, s: State, first: Option<Key>, writes: nat)
    requires Inv(sys, s) && s.stage == Recovering(Ending(first)) && s.disk.run.phase != RunCompleted
    ensures |s.disk.nodes| == |sys.doc.nodes| && (first.Some? ==> Applies(sys.doc, s.disk, Conclude(first.value)))
    ensures
      var p := if first.Some? then Perform(sys.doc, Fresh(s, writes), Conclude(first.value)) else Fresh(s, writes);
      AllApply(sys.doc, p.disk, Drops(Leftovers(p.disk.nodes), WorkflowCancelled))
      && (!p.ok ==> PerformAll(sys.doc, p, Drops(Leftovers(p.disk.nodes), WorkflowCancelled)) == p)
  {
    hide Perform, PerformAll, Leftovers, FlightOk;
    NodesSound(sys, s);
    if first.Some? { ConcludeLegal(sys.doc, s.disk, s.past, first.value); }
    hide Inv;
    var p := if first.Some? then Perform(sys.doc, Fresh(s, writes), Conclude(first.value)) else Fresh(s, writes);
    DropsLegal(sys.doc, p.disk, s.past.gone);
    if !p.ok { FaultsStay(sys.doc, p, Drops(Leftovers(p.disk.nodes), WorkflowCancelled)); }
  }

  /** What recording a cancellation may rely on. */
  lemma CancelFacts(sys: System, s: State, writes: nat)
    requires Inv(sys, s) && s.canceller.Polling?
    ensures AllApply(sys.doc, s.disk, CancelEdits(s.canceller))
    ensures
      var p := PerformAll(sys.doc, Fresh(s, writes), CancelEdits(s.canceller));
      AllApply(sys.doc, p.disk, Drops(Leftovers(p.disk.nodes), WorkflowCancelled))
      && (!p.ok ==> PerformAll(sys.doc, p, Drops(Leftovers(p.disk.nodes), WorkflowCancelled)) == p)
  {
    hide DiskOk, FlightOk, PerformAll, Leftovers;
    NodesSound(sys, s);
    var c := s.canceller;
    forall i | 0 <= i < |c.targets| ensures Applies(sys.doc, s.disk, CancelEdits(c)[i]) { assert c.targets[i] in c.targets; }
    var p := PerformAll(sys.doc, Fresh(s, writes), CancelEdits(c));
    DropsLegal(sys.doc, p.disk, s.past.gone);
    if !p.ok { FaultsStay(sys.doc, p, Drops(Leftovers(p.disk.nodes), WorkflowCancelled)); }
  }

  /** Performs a list unless the store has faulted already. */
  ghost function Then(doc: Document, p: Progress, es: seq<Edit>): (q: Progress)
    requires AllApply(doc, p.disk, es)
    ensures |q.disk.nodes| == |p.disk.nodes|
  {
    if p.ok then PerformAll(doc, p, es) else p
  }

  lemma ThenPerforms(doc: Document, p: Progress, es: seq<Edit>)
    requires AllApply(doc, p.disk, es)
    ensures Then(doc, p, es) == PerformAll(doc, p, es)
  {
    if !p.ok { FaultsStay(doc, p, es); }
  }

  ghost predicate PartsApply(doc: Document, p: Progress, d: Decision)
  {
    && AllApply(doc, p.disk, Drops(d.skipUpstream, UpstreamFailed)) && AllApply(doc, p.disk, Drops(d.skipConditions, ConditionFalse))
    && AllApply(doc, p.disk, Drops(d.skipFailurePolicy, FailurePolicy)) && AllApply(doc, p.disk, Asks(d.readyApprovals))
    && AllApply(doc, p.disk, Assigns(d.readyAgents))
  }

  lemma PartsStay(doc: Document, p: Progress, q: Progress, d: Decision)
    requires PartsApply(doc, p, d) && |q.disk.nodes| == |p.disk.nodes|
    ensures PartsApply(doc, q, d)
  {
  }

  /** A decision's edits, list by list. */
  lemma DecisionInParts(doc: Document, p: Progress, d: Decision)
    requires AllApply(doc, p.disk, EditsOf(d)) && p.ok
    ensures PartsApply(doc, p, d)
    ensures
      var p1 := Then(doc, p, Drops(d.skipUpstream, UpstreamFailed));
      PartsApply(doc, p1, d) && var p2 := Then(doc, p1, Drops(d.skipConditions, ConditionFalse));
      PartsApply(doc, p2, d) && var p3 := Then(doc, p2, Drops(d.skipFailurePolicy, FailurePolicy));
      PartsApply(doc, p3, d) && var p4 := Then(doc, p3, Asks(d.readyApprovals));
      PartsApply(doc, p4, d) && PerformAll(doc, p, EditsOf(d)) == Then(doc, p4, Assigns(d.readyAgents))
  {
    hide PerformAll, PartsApply;
    var a, b := Drops(d.skipUpstream, UpstreamFailed), Drops(d.skipConditions, ConditionFalse);
    var c, e, f := Drops(d.skipFailurePolicy, FailurePolicy), Asks(d.readyApprovals), Assigns(d.readyAgents);
    PartsOf(doc, p, d);
    var p1 := Then(doc, p, a);
    PartsStay(doc, p, p1, d);
    PartsLists(doc, p1, d);
    var p2 := Then(doc, p1, b);
    PartsStay(doc, p1, p2, d);
    PartsLists(doc, p2, d);
    var p3 := Then(doc, p2, c);
    PartsStay(doc, p2, p3, d);
    PartsLists(doc, p3, d);
    var p4 := Then(doc, p3, e);
    PartsStay(doc, p3, p4, d);
    PartsLists(doc, p4, d);
    ThenPerforms(doc, p, a);
    ThenPerforms(doc, p1, b);
    ThenPerforms(doc, p2, c);
    ThenPerforms(doc, p3, e);
    ThenPerforms(doc, p4, f);
    PerformConcat(doc, p, a, b);
    PerformConcat(doc, p, a + b, c);
    PerformConcat(doc, p, a + b + c, e);
    PerformConcat(doc, p, a + b + c + e, f);
  }

  lemma PartsLists(doc: Document, p: Progress, d: Decision)
    requires PartsApply(doc, p, d)
    ensures AllApply(doc, p.disk, Drops(d.skipUpstream, UpstreamFailed)) && AllApply(doc, p.disk, Drops(d.skipConditions, ConditionFalse))
    ensures AllApply(doc, p.disk, Drops(d.skipFailurePolicy, FailurePolicy)) && AllApply(doc, p.disk, Asks(d.readyApprovals))
    ensures AllApply(doc, p.disk, Assigns(d.readyAgents))
  {
  }

  lemma PartsOf(doc: Document, p: Progress, d: Decision)
    requires AllApply(doc, p.disk, EditsOf(d))
    ensures PartsApply(doc, p, d)
    ensures
      var a, b := Drops(d.skipUpstream, UpstreamFailed), Drops(d.skipConditions, ConditionFalse);
      var c, e := Drops(d.skipFailurePolicy, FailurePolicy), Asks(d.readyApprovals);
      AllApply(doc, p.disk, a + b) && AllApply(doc, p.disk, a + b + c) && AllApply(doc, p.disk, a + b + c + e)
  {
    var a, b := Drops(d.skipUpstream, UpstreamFailed), Drops(d.skipConditions, ConditionFalse);
    var c, e, f := Drops(d.skipFailurePolicy, FailurePolicy), Asks(d.readyApprovals), Assigns(d.readyAgents);
    BothParts(doc, p.disk, a + b + c + e, f);
    BothParts(doc, p.disk, a + b + c, e);
    BothParts(doc, p.disk, a + b, c);
    BothParts(doc, p.disk, a, b);
  }

  lemma BothParts(doc: Document, d: Disk, a: seq<Edit>, b: seq<Edit>)
    requires AllApply(doc, d, a + b)
    ensures AllApply(doc, d, a) && AllApply(doc, d, b)
  {
    assert forall i :: 0 <= i < |a| ==> (a + b)[i] == a[i];
    assert forall i :: 0 <= i < |b| ==> (a + b)[|a| + i] == b[i];
  }

  lemma NodesSound(sys: System, s: State)
    requires Inv(sys, s)
    ensures NodesOk(sys.doc, s.disk.nodes)
  {
  }

  lemma SettleFacts(sys: System, s: State)
    requires Inv(sys, s) && s.stage.Observing? && s.stage.settled < |s.stage.refs| && AllObserved(s.stage)
    ensures
      var k := s.stage.refs[s.stage.settled];
      k in s.stage.verdicts && (Mutable(s) && EditFor(k, s.stage.verdicts[k]).Some? ==> Applies(sys.doc, s.disk, EditFor(k, s.stage.verdicts[k]).value))
  {
    var k := s.stage.refs[s.stage.settled];
    assert k in s.stage.refs;
    if Mutable(s) && EditFor(k, s.stage.verdicts[k]).Some? { SettleLegal(sys, s); }
  }

  lemma ObservedOnDisk(sys: System, s: State, k: Key)
    requires Inv(sys, s) && s.stage.Observing? && k in s.stage.refs
    ensures k in s.disk.attempts
  {
  }

  /** The next edit of a list and the ones after it. */
  lemma NextEdit(doc: Document, p: Progress, es: seq<Edit>, i: nat)
    requires i < |es| && AllApply(doc, p.disk, es[i..])
    ensures Applies(doc, p.disk, es[i]) && AllApply(doc, Perform(doc, p, es[i]).disk, es[i + 1..])
    ensures PerformAll(doc, p, es[i..]) == PerformAll(doc, Perform(doc, p, es[i]), es[i + 1..])
  {
    assert es[i..][0] == es[i] && es[i..][1..] == es[i + 1..];
    assert forall j :: 0 <= j < |es[i..]| - 1 ==> es[i..][1..][j] == es[i..][j + 1];
  }
}
