/** What holds over whole runs: cancellation leaves nothing running, nothing is started
    twice, and nothing found without a handle is ever launched again. */
module RunGuarantees {
  import opened Workflow
  import opened Scheduler
  import opened Topology
  import opened RunMachine
  import opened RunInvariant
  import opened RunSteps

  /** The machine after some steps from the start. */
  ghost function After(sys: System, steps: seq<Step>): State { Reached(sys, Initial(sys), steps) }

  // ----- cancellation -----

  /** The run completes exactly when every target is confirmed and no write is lost; then
      every node is done but the active ones that were no target. */
  lemma CompletesWhole(sys: System, s: State, writes: nat)
    requires Inv(sys, s) && s.canceller.Polling? && s.disk.run.phase != RunCompleted && AllApply(sys.doc, s.disk, CancelEdits(s.canceller))
    ensures
      var p := CancelWrites(sys, s, writes);
      && (p.disk.run.phase == RunCompleted <==> p.ok && AllConfirmed(s.canceller))
      && (p.disk.run.phase == RunCompleted ==>
            && p.disk.run.conclusion == Cancelled && p.disk.run.cancelRequested
            && (AllDone(p.disk.nodes) <==> !LeftAtWork(s.disk.nodes, s.canceller.targets)))
  {
    hide DiskOk, FlightOk, PerformAll, Legal, AllApply, Leftovers, CancelEdits;
    CancelWritesKeep(sys, s, writes);
    var p := CancelWrites(sys, s, writes);
    if p.disk.run.phase == RunCompleted && AllDone(p.disk.nodes) {
      forall i | 0 <= i < |s.disk.nodes| ensures !(Active(s.disk.nodes[i]) && Key(i, s.disk.nodes[i].attempt) !in s.canceller.targets) {
        assert Done(p.disk.nodes[i]);
      }
    }
  }

  // ----- launches -----

  /** What one step may do to launches: attempts stay on disk, only attempts that were not
      there before are handed to launchers, and only launches in flight are started. */
  ghost predicate LaunchFrame(s: State, t: State)
  {
    && s.disk.attempts.Keys <= t.disk.attempts.Keys
    && (forall k :: k in t.flights ==> k in s.flights || k !in s.disk.attempts)
    && (forall k :: k !in s.flights ==> t.past.started[k] == s.past.started[k])
  }

  /** No launch is added, no attempt is started, and none disappears. */
  ghost predicate NoLaunch(s: State, t: State)
  {
    t.flights.Keys <= s.flights.Keys && t.past.started == s.past.started && s.disk.attempts.Keys <= t.disk.attempts.Keys
  }

  lemma SameFrame(s: State, t: State)
    requires NoLaunch(s, t)
    ensures LaunchFrame(s, t)
  {
    forall k | k in t.flights ensures k in s.flights { assert k in t.flights.Keys; }
  }

  lemma ScheduleFrame(sys: System, s: State, limit: nat, writes: nat)
    requires Inv(sys, s)
    ensures LaunchFrame(s, DoSchedule(sys, s, limit, writes))
  {
    hide DiskOk, Plan, PerformAll, Aggregate, AllApply, EditsOf, AssignedIn;
    DiskNodes(sys.doc, s.disk, s.past);
    var t := DoSchedule(sys, s, limit, writes);
    if s.stage == Idle && Mutable(s) {
      var plan := Plan(sys.doc, s.disk.run.conclusion, s.disk.nodes, limit);
      if plan.Ok? && AllApply(sys.doc, s.disk, EditsOf(plan.value)) {
        BatchKeeps(sys, s, limit, writes);
        var p := PerformAll(sys.doc, Fresh(s, writes), EditsOf(plan.value));
        if p.ok && plan.value.readyAgents != [] { NewFlightsOk(sys, s, t, plan.value.readyAgents); }
      }
    }
  }

  /** Steps that hand nothing to a launcher and start nothing. */
  lemma ControlFrame(sys: System, s: State, step: Step)
    requires Inv(sys, s) && !step.Schedule? && !step.CallStart?
    ensures NoLaunch(s, Apply(sys, s, step))
  {
    if step.Act? {
      ActFrame(sys, s, step.action, step.writes);
    } else {
      hide Inv, NoLaunch, DoStartControl, DoFailControl, DoBeginReconcile, DoObserve, DoSettle, DoEndReconcile, DoSchedule, DoBegin,
        DoLoseDriver, DoCallStart, DoLand, DoResolve, DoEndLaunch, DoMarkCancel, DoPollTarget, DoGiveUp, DoCancelBackend, DoApplyCancel,
        DoStartRecovery, DoRecoverMark, DoRecoverLook, DoRecoverAsk, DoRecoverEnd, DoCrash;
      match step
      case Settle(writes) => SettleFrame(sys, s, writes);
      case Resolve(k, writes) => ResolveFrame(sys, s, k, writes);
      case ApplyCancel(writes) => ApplyFrame(sys, s, writes);
      case RecoverEnd(writes) => RecoveryFrame(sys, s, writes);
      case StartRecovery(_) => RecoverFrame(sys, s, step);
      case RecoverMark(_) => RecoverFrame(sys, s, step);
      case RecoverLook(_) => RecoverFrame(sys, s, step);
      case RecoverGiveUp => RecoverFrame(sys, s, step);
      case RecoverAsk(_) => RecoverFrame(sys, s, step);
      case MarkCancel(_) => CancellerFrame(sys, s, step);
      case PollTarget(_, _) => CancellerFrame(sys, s, step);
      case GiveUp(_) => CancellerFrame(sys, s, step);
      case CancelBackend(_, _) => CancellerFrame(sys, s, step);
      case Begin(_, _) => LauncherFrame(sys, s, step);
      case LoseDriver(_) => LauncherFrame(sys, s, step);
      case Land(_, _) => LauncherFrame(sys, s, step);
      case _ => PlainFrame(sys, s, step);
    }
  }

  lemma PlainFrame(sys: System, s: State, step: Step)
    requires step.StartControl? || step.StopControl? || step.FailControl? || step.BeginReconcile? || step.Observe? || step.EndReconcile?
          || step.EndLaunch? || step.Crash?
    ensures NoLaunch(s, Apply(sys, s, step))
  {
    hide ActiveKeys, Mutable, Joined;
  }

  lemma CancellerFrame(sys: System, s: State, step: Step)
    requires step.MarkCancel? || step.PollTarget? || step.GiveUp? || step.CancelBackend?
    ensures NoLaunch(s, Apply(sys, s, step))
  {
    hide Targets, ActiveKeys;
  }

  lemma RecoverFrame(sys: System, s: State, step: Step)
    requires step.StartRecovery? || step.RecoverMark? || step.RecoverLook? || step.RecoverGiveUp? || step.RecoverAsk?
    ensures NoLaunch(s, Apply(sys, s, step))
  {
    hide Picked;
  }

  lemma LauncherFrame(sys: System, s: State, step: Step)
    requires step.Begin? || step.LoseDriver? || step.Land?
    ensures NoLaunch(s, Apply(sys, s, step))
  {
  }

  lemma SettleFrame(sys: System, s: State, writes: nat)
    ensures NoLaunch(s, DoSettle(sys, s, writes))
  {
    hide Perform, Applies, Mutable, EditFor;
  }

  lemma ResolveFrame(sys: System, s: State, k: Key, writes: nat)
    ensures NoLaunch(s, DoResolve(sys, s, k, writes))
  {
    hide Perform, Applies, Mutable;
  }

  lemma ApplyFrame(sys: System, s: State, writes: nat)
    ensures NoLaunch(s, DoApplyCancel(sys, s, writes))
  {
    hide PerformAll, AllApply, Leftovers, LeftAtWork, AllConfirmed;
  }

  lemma RecoveryFrame(sys: System, s: State, writes: nat)
    ensures NoLaunch(s, DoRecoverEnd(sys, s, writes))
  {
    hide Perform, PerformAll, AllApply, Leftovers, LeftAtWork, Applies;
  }

  lemma ActFrame(sys: System, s: State, action: Action, writes: nat)
    requires Inv(sys, s)
    ensures var t := DoAct(sys, s, action, writes);
            t.flights == s.flights && t.past.started == s.past.started && t.disk.attempts == s.disk.attempts && t.stage == s.stage
  {
    hide Inv, Takes, Repeats, ActWrites;
    if !AllowedAgain(s, action) && Allowed(s, action) && Fits(sys.doc, s.disk.nodes) { ActWritesNodes(sys.doc, Fresh(s, writes), action); }
  }

  lemma StepFrame(sys: System, s: State, step: Step)
    requires Inv(sys, s)
    ensures LaunchFrame(s, Apply(sys, s, step))
  {
    hide LaunchFrame, Inv, DoSchedule, DoCallStart, DoSettle, DoResolve, DoApplyCancel, DoAct, DoMarkCancel, DoBegin, DoLand, DoRecoverEnd, DoRecoverMark;
    if step.Schedule? {
      ScheduleFrame(sys, s, step.limit, step.writes);
    } else if step.CallStart? {
      CallFrame(s, step.k, step.handle, step.failed);
    } else {
      ControlFrame(sys, s, step);
      SameFrame(s, Apply(sys, s, step));
    }
  }

  lemma CallFrame(s: State, k: Key, handle: bool, failed: bool)
    ensures LaunchFrame(s, DoCallStart(s, k, handle, failed))
  {
  }

  /** Steps from a state. */
  lemma {:induction false} LaterInv(sys: System, s: State, steps: seq<Step>)
    requires Inv(sys, s)
    ensures Inv(sys, Reached(sys, s, steps))
  {
    if steps != [] {
      LaterInv(sys, s, steps[..|steps| - 1]);
      StepKeeps(sys, Reached(sys, s, steps[..|steps| - 1]), steps[|steps| - 1]);
    }
  }

  /** An attempt on disk that no launcher holds, such as one left by a crash, is never
      handed to a launcher and never started, whatever follows. */
  lemma {:induction false} NeverRelaunched(sys: System, s: State, steps: seq<Step>, k: Key)
    requires Inv(sys, s) && k in s.disk.attempts && k !in s.flights
    ensures
      var t := Reached(sys, s, steps);
      k in t.disk.attempts && k !in t.flights && t.past.started[k] == s.past.started[k]
  {
    hide Inv, Apply;
    if steps != [] {
      var before := steps[..|steps| - 1];
      NeverRelaunched(sys, s, before, k);
      LaterInv(sys, s, before);
      StepFrame(sys, Reached(sys, s, before), steps[|steps| - 1]);
    }
  }

  /** After a crash every attempt on disk keeps the number of starts it had. */
  lemma CrashNeverRestarts(sys: System, s: State, steps: seq<Step>, k: Key)
    requires Inv(sys, s) && k in s.disk.attempts
    ensures Reached(sys, DoCrash(s), steps).past.started[k] == s.past.started[k]
  {
    CrashKeeps(sys, s);
    NeverRelaunched(sys, DoCrash(s), steps, k);
  }

  /** No launcher will start the attempt: none holds it, or the cancellation is on disk and
      its launcher has not passed its own check under the mutex. */
  ghost predicate Shelved(s: State, k: Key)
  {
    && k in s.disk.attempts
    && (k in s.flights ==> s.stage == Launching && s.disk.run.cancelRequested && (s.flights[k] == Queued || s.flights[k].Landed?))
  }

  lemma CancelShelves(sys: System, s: State, writes: nat, k: Key)
    requires Inv(sys, s) && Shelved(s, k)
    ensures Shelved(DoApplyCancel(sys, s, writes), k)
  {
    hide Inv, CancelWrites, AllApply, CancelEdits, AllAnswered, AllConfirmed, LeftAtWork;
    if s.canceller.Polling? && s.disk.run.phase != RunCompleted && AllApply(sys.doc, s.disk, CancelEdits(s.canceller)) { CancelWritesKeep(sys, s, writes); }
  }

  /** The steps of the canceller. */
  lemma CancellerShelves(sys: System, s: State, step: Step, k: Key)
    requires Inv(sys, s) && Shelved(s, k) && k in s.flights
    requires step.MarkCancel? || step.PollTarget? || step.GiveUp? || step.CancelBackend? || step.ApplyCancel?
    ensures Shelved(Apply(sys, s, step), k)
  {
    hide Inv, DoApplyCancel, Targets, ActiveKeys;
    if step.ApplyCancel? { CancelShelves(sys, s, step.writes, k); }
  }

  /** The steps of launchers. */
  lemma LaunchShelves(sys: System, s: State, step: Step, k: Key)
    requires Shelved(s, k) && k in s.flights
    requires step.Begin? || step.LoseDriver? || step.CallStart? || step.Land? || step.Resolve? || step.EndLaunch?
    ensures Shelved(Apply(sys, s, step), k)
  {
    hide Perform, Applies;
  }

  /** The steps of the controller, which is busy launching. */
  lemma ControlShelves(sys: System, s: State, step: Step, k: Key)
    requires Shelved(s, k) && k in s.flights && !step.MarkCancel? && !step.PollTarget? && !step.GiveUp? && !step.CancelBackend? && !step.ApplyCancel?
    requires !(step.Begin? || step.LoseDriver? || step.CallStart? || step.Land? || step.Resolve? || step.EndLaunch?)
    ensures Shelved(Apply(sys, s, step), k)
  {
    hide Perform, PerformAll, Applies, AllApply, Plan, ActiveKeys, EditFor, Takes, Repeats, DoBegin, DoLand, DoResolve, DoMarkCancel, DoApplyCancel;
  }

  lemma StepShelves(sys: System, s: State, step: Step, k: Key)
    requires Inv(sys, s) && Shelved(s, k)
    ensures Shelved(Apply(sys, s, step), k) && Apply(sys, s, step).past.started[k] == s.past.started[k]
  {
    StepFrame(sys, s, step);
    if k in s.flights {
      StartsNone(sys, s, step, k);
      hide Apply, LaunchFrame, Inv, Shelved;
      if step.MarkCancel? || step.PollTarget? || step.GiveUp? || step.CancelBackend? || step.ApplyCancel? {
        CancellerShelves(sys, s, step, k);
      } else if step.Begin? || step.LoseDriver? || step.CallStart? || step.Land? || step.Resolve? || step.EndLaunch? {
        LaunchShelves(sys, s, step, k);
      } else {
        ControlShelves(sys, s, step, k);
      }
    }
  }

  lemma StartsNone(sys: System, s: State, step: Step, k: Key)
    requires Inv(sys, s) && Shelved(s, k) && k in s.flights
    ensures Apply(sys, s, step).past.started[k] == s.past.started[k]
  {
    hide Inv;
    if step.CallStart? {
    } else if !step.Schedule? {
      ControlFrame(sys, s, step);
      hide Apply;
    }
  }

  /** A prepared attempt seen once the cancellation is on disk is never dispatched and never
      started, whatever launcher holds it and whatever follows. */
  lemma {:induction false} PreparedIsNeverDispatched(sys: System, s: State, steps: seq<Step>, k: Key)
    requires Inv(sys, s) && s.disk.run.cancelRequested && k in s.disk.attempts && s.disk.attempts[k].launch == Prepared
    ensures k !in Reached(sys, s, steps).past.started && Shelved(Reached(sys, s, steps), k)
  {
    hide Apply, DiskOk, ObservingOk, CancelOk, RecoverOk;
    if steps == [] {
      PreparedIsShelved(sys, s, k);
    } else {
      var before := steps[..|steps| - 1];
      PreparedIsNeverDispatched(sys, s, before, k);
      LaterInv(sys, s, before);
      StepShelves(sys, Reached(sys, s, before), steps[|steps| - 1], k);
    }
  }

  lemma PreparedIsShelved(sys: System, s: State, k: Key)
    requires Inv(sys, s) && s.disk.run.cancelRequested && k in s.disk.attempts && s.disk.attempts[k].launch == Prepared
    ensures k !in s.past.started && Shelved(s, k)
  {
    hide ObservingOk, CancelOk;
    if k in s.flights { assert FlightOk(s, k); }
  }

  /** A node observed without a handle is concluded as indeterminate, with no call to the backend. */
  lemma MissingHandleConcludes(sys: System, s: State, writes: nat)
    requires Inv(sys, s) && s.stage.Observing? && s.stage.settled < |s.stage.refs| && AllObserved(s.stage) && Mutable(s) && writes >= 2
    requires s.stage.verdicts[s.stage.refs[s.stage.settled]] == Missing
    ensures
      var k, t := s.stage.refs[s.stage.settled], Apply(sys, s, Settle(writes));
      && k in t.disk.attempts && t.disk.attempts[k].phase == Completed && t.disk.attempts[k].conclusion == Indeterminate
      && t.disk.nodes[k.node].phase == Completed && t.disk.nodes[k.node].conclusion == Indeterminate
      && t.past == s.past && t.flights == s.flights
  {
    hide Inv, Legal;
    SettleLegal(sys, s);
  }

  // ----- how often a node is started -----

  ghost function StartsOf(s: State, i: NodeId): set<nat>
    requires i < |s.disk.nodes|
  {
    set n | 1 <= n <= s.disk.nodes[i].attempt && Key(i, n) in s.past.started
  }

  lemma {:induction false} UpTo(n: nat, some: set<nat>)
    requires forall x :: x in some ==> 1 <= x <= n
    ensures |some| <= n
  {
    if n == 0 {
      assert some == {};
    } else {
      UpTo(n - 1, some - {n});
      assert |some| <= |some - {n}| + 1 by { if n in some { assert some == some - {n} + {n}; } else { assert some == some - {n}; } }
    }
  }

  /** Each attempt is started at most once, and a node is started at most once more than
      the retries and answers it was given. */
  lemma StartsAreBounded(sys: System, steps: seq<Step>, i: NodeId, n: nat)
    requires Ordered(sys.doc) && i < |sys.doc.nodes|
    ensures
      var s := After(sys, steps);
      && |s.disk.nodes| == |sys.doc.nodes| == |s.past.accepted|
      && s.past.started[Key(i, n)] <= 1
      && (Key(i, n) in s.past.started ==> n in StartsOf(s, i))
      && |StartsOf(s, i)| <= s.disk.nodes[i].attempt <= 1 + s.past.accepted[i]
  {
    hide FlightsOk, ObservingOk, CancelOk;
    ReachedInv(sys, steps);
    var s := After(sys, steps);
    UpTo(s.disk.nodes[i].attempt, StartsOf(s, i));
    if Key(i, n) in s.past.started { assert AttemptOk(s.disk.nodes, s.past.gone, Key(i, n), s.disk.attempts[Key(i, n)]); }
  }
}
