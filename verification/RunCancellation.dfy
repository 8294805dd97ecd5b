/** What a cancellation means: in every reachable state nothing that the engine has
    concluded as cancelled is left running, except where a canceller found it concluded. */
module RunCancellation {
  import opened Workflow
  import opened Scheduler
  import opened Topology
  import opened RunMachine
  import opened RunInvariant
  import opened RunSteps
  import opened RunGuarantees
  import opened RunProgress

  /** The current attempt of a node that is concluded as cancelled. */
  ghost predicate Settled(nodes: seq<Node>, k: Key) { Current(nodes, k) && CancelledNode(nodes[k.node]) }

  ghost predicate Noted(d: Disk, k: Key) { k in d.attempts && AlreadyCancelled(d.attempts[k]) }

  /** What a cancellation has dealt with: it stands as cancelled in its node's file or in its
      own, or its cancellation has been answered for good and is about to be recorded. */
  ghost predicate Dealt(s: State, k: Key)
  {
    || Settled(s.disk.nodes, k) || Noted(s.disk, k)
    || (s.canceller.Polling? && k in s.canceller.polls && s.canceller.polls[k] == Answered(true))
    || s.stage == Recovering(Ending(Some(k)))
  }

  /** Nothing is left to cancel: the attempt was never started and never will be, or its
      cancellation was confirmed, or it was found concluded. */
  ghost predicate Harmless(s: State, k: Key)
  {
    || k in s.confirmed || k in s.spared
    || (k !in s.past.started && (k in s.flights ==> s.flights[k] != Begun && (s.flights[k] == Queued ==> s.disk.run.cancelRequested)))
  }

  ghost predicate SettledOk(s: State)
  {
    && (forall k :: Dealt(s, k) ==> Harmless(s, k))
    && (forall k :: k in s.spared ==> k in s.past.started && k in s.past.gone)
  }

  // ----- only an answered cancellation cancels -----

  /** The edits that cancel an attempt. */
  ghost predicate Confirmed(es: seq<Edit>, k: Key) { exists i :: 0 <= i < |es| && (es[i].Confirm? || es[i].Conclude?) && es[i].k == k }

  ghost predicate CancelsOnly(d: Disk, e: Disk, k: Key, confirmed: bool)
  {
    && (Settled(e.nodes, k) ==> Settled(d.nodes, k) || confirmed)
    && (Noted(e, k) ==> Noted(d, k) || confirmed)
  }

  lemma EditCancels(doc: Document, p: Progress, past: Past, e: Edit, k: Key)
    requires Applies(doc, p.disk, e) && Legal(p.disk, past.gone, e)
    ensures CancelsOnly(p.disk, Perform(doc, p, e).disk, k, (e.Confirm? || e.Conclude?) && e.k == k)
  {
  }

  lemma CancelsTwice(d: Disk, e: Disk, f: Disk, k: Key, first: bool, rest: bool)
    requires CancelsOnly(d, e, k, first) && CancelsOnly(e, f, k, rest)
    ensures CancelsOnly(d, f, k, first || rest)
  {
  }

  lemma {:induction false} EditsCancel(doc: Document, p: Progress, past: Past, es: seq<Edit>, k: Key)
    requires DiskOk(doc, p.disk, past) && p.disk.run.phase != RunCompleted
    requires AllApply(doc, p.disk, es) && AllLegal(p.disk, past.gone, es) && Apart(es)
    ensures CancelsOnly(p.disk, PerformAll(doc, p, es).disk, k, Confirmed(es, k))
    decreases |es|
  {
    hide DiskOk, Perform, Legal, CancelsOnly;
    if es == [] {
      NothingCancelled(p.disk, k, Confirmed(es, k));
    } else {
      var p1, rest := Perform(doc, p, es[0]), es[1..];
      EditKeeps(doc, p, past, es[0]);
      RestLegal(doc, p, past, es);
      EditCancels(doc, p, past, es[0], k);
      EditsCancel(doc, p1, past, rest, k);
      assert forall i :: 0 <= i < |rest| ==> rest[i] == es[i + 1];
      var first := (es[0].Confirm? || es[0].Conclude?) && es[0].k == k;
      assert Confirmed(es, k) == (first || Confirmed(rest, k)) by { ConfirmedSplit(es, k); }
      CancelsTwice(p.disk, p1.disk, PerformAll(doc, p1, rest).disk, k, first, Confirmed(rest, k));
    }
  }

  lemma ConfirmedSplit(es: seq<Edit>, k: Key)
    requires es != []
    ensures Confirmed(es, k) <==> ((es[0].Confirm? || es[0].Conclude?) && es[0].k == k) || Confirmed(es[1..], k)
  {
    assert forall i :: 0 <= i < |es| - 1 ==> es[1..][i] == es[i + 1];
    if i :| 0 < i < |es| && (es[i].Confirm? || es[i].Conclude?) && es[i].k == k { assert es[1..][i - 1] == es[i]; }
  }

  lemma NothingCancelled(d: Disk, k: Key, confirmed: bool)
    ensures CancelsOnly(d, d, k, confirmed)
  {
  }

  // ----- what is harmless stays so -----

  /** Nothing is launched or started, and nothing more is dealt with. */
  ghost predicate Calm(s: State, t: State)
  {
    && s.confirmed <= t.confirmed && t.spared == s.spared && t.past.started == s.past.started && s.past.gone <= t.past.gone
    && (forall k :: k in t.flights ==> k in s.flights && t.flights[k] == s.flights[k])
    && (s.disk.run.cancelRequested ==> t.disk.run.cancelRequested || t.flights == map[])
    && (forall k :: Dealt(t, k) ==> Dealt(s, k) || k in t.confirmed)
  }

  lemma CalmKeeps(s: State, t: State)
    requires SettledOk(s) && Calm(s, t)
    ensures SettledOk(t)
  {
    hide Dealt;
    forall k | Dealt(t, k) ensures Harmless(t, k) { if k !in t.confirmed { assert Harmless(s, k); } }
  }

  /** Files that are as they were have nothing more cancelled in them. */
  lemma SameDealt(s: State, t: State, k: Key)
    requires t.disk.nodes == s.disk.nodes && t.disk.attempts == s.disk.attempts
    requires t.canceller == s.canceller || t.canceller == NoCancel
    requires t.stage.Recovering? && t.stage.progress.Ending? ==> t.stage == s.stage
    ensures Dealt(t, k) ==> Dealt(s, k)
  {
  }

  /** Nothing changes but the run's file, who works on it, and what is known. */
  ghost predicate Unmoved(s: State, t: State)
  {
    && s.confirmed <= t.confirmed && t.spared == s.spared && t.past.started == s.past.started && s.past.gone <= t.past.gone
    && (t.flights == s.flights || t.flights == map[]) && (s.disk.run.cancelRequested ==> t.disk.run.cancelRequested)
    && t.disk.nodes == s.disk.nodes && t.disk.attempts == s.disk.attempts && (t.canceller == s.canceller || t.canceller == NoCancel)
  }

  lemma StartsUnmoved(s: State, rewrite: bool, writes: nat)
    ensures Unmoved(s, DoStartControl(s, rewrite, writes)) && !(DoStartControl(s, rewrite, writes) != s && DoStartControl(s, rewrite, writes).stage.Recovering?)
    ensures Unmoved(s, DoStartRecovery(s, writes))
  {
  }

  lemma EndsUnmoved(s: State, paused: bool, writes: nat)
    ensures Unmoved(s, DoFailControl(s, paused, writes)) && Unmoved(s, DoStopControl(s)) && Unmoved(s, DoCrash(s))
    ensures DoFailControl(s, paused, writes).stage.Recovering? ==> DoFailControl(s, paused, writes).stage == s.stage
    ensures DoStopControl(s).stage.Recovering? ==> DoStopControl(s).stage == s.stage
  {
    hide Mutable, Joined;
  }

  lemma ReconcileUnmoved(s: State, k: Key, seen: Observation)
    ensures Unmoved(s, DoObserve(s, k, seen)) && (DoObserve(s, k, seen).stage.Recovering? ==> DoObserve(s, k, seen).stage == s.stage)
  {
  }

  lemma PlainUnmoved(s: State)
    ensures Unmoved(s, DoBeginReconcile(s)) && Unmoved(s, DoEndReconcile(s)) && Unmoved(s, DoEndLaunch(s))
    ensures DoBeginReconcile(s).stage.Recovering? ==> DoBeginReconcile(s).stage == s.stage
    ensures DoEndReconcile(s).stage.Recovering? ==> DoEndReconcile(s).stage == s.stage
    ensures DoEndLaunch(s).stage.Recovering? ==> DoEndLaunch(s).stage == s.stage
  {
    hide ActiveKeys;
  }

  lemma RecoverUnmoved(s: State, writes: nat, confirmed: bool)
    ensures Unmoved(s, DoRecoverMark(s, writes)) && Unmoved(s, DoRecoverGiveUp(s)) && Unmoved(s, DoRecoverAsk(s, confirmed))
  {
    hide Picked;
  }

  lemma ControlStays(sys: System, s: State, step: Step)
    requires step.StartControl? || step.StopControl? || step.FailControl? || step.BeginReconcile? || step.Observe? || step.EndReconcile?
          || step.EndLaunch? || step.Crash?
    ensures Unmoved(s, Apply(sys, s, step)) && (Apply(sys, s, step).stage.Recovering? ==> Apply(sys, s, step).stage == s.stage)
  {
    hide Unmoved, DoStartControl, DoStopControl, DoFailControl, DoBeginReconcile, DoObserve, DoEndReconcile, DoEndLaunch;
    match step
    case StartControl(rewrite, writes) => StartsUnmoved(s, rewrite, writes);
    case StopControl => EndsUnmoved(s, false, 0);
    case FailControl(paused, writes) => EndsUnmoved(s, paused, writes);
    case Observe(k, seen) => ReconcileUnmoved(s, k, seen);
    case Crash => EndsUnmoved(s, false, 0);
    case BeginReconcile => PlainUnmoved(s);
    case EndReconcile => PlainUnmoved(s);
    case EndLaunch => PlainUnmoved(s);
  }

  lemma RecoverStays(sys: System, s: State, step: Step)
    requires step.StartRecovery? || step.RecoverMark? || step.RecoverGiveUp? || step.RecoverAsk?
    ensures Unmoved(s, Apply(sys, s, step))
  {
    hide Unmoved, DoStartRecovery, DoRecoverMark, DoRecoverGiveUp, DoRecoverAsk;
    match step
    case StartRecovery(writes) => StartsUnmoved(s, false, writes);
    case RecoverMark(writes) => RecoverUnmoved(s, writes, false);
    case RecoverGiveUp => RecoverUnmoved(s, 0, false);
    case RecoverAsk(confirmed) => RecoverUnmoved(s, 0, confirmed);
  }

  /** The controller's steps that write no node, and the ends of controllers. */
  lemma ControlCalm(sys: System, s: State, step: Step)
    requires step.StartControl? || step.StopControl? || step.FailControl? || step.BeginReconcile? || step.Observe? || step.EndReconcile?
          || step.EndLaunch? || step.Crash?
    ensures Calm(s, Apply(sys, s, step))
  {
    var t := Apply(sys, s, step);
    ControlStays(sys, s, step);
    hide Dealt, Apply;
    forall k | Dealt(t, k) ensures Dealt(s, k) { SameDealt(s, t, k); }
  }


  /** The canceller's steps that change no file of nodes and attempts. */
  lemma CancellerCalm(sys: System, s: State, step: Step)
    requires step.MarkCancel? || step.GiveUp? || step.CancelBackend?
    ensures Calm(s, Apply(sys, s, step))
  {
    forall k | Dealt(Apply(sys, s, step), k) ensures Dealt(s, k) || k in Apply(sys, s, step).confirmed { CancellerDealt(sys, s, step, k); }
    hide Dealt, Targets, ActiveKeys;
  }

  lemma CancellerDealt(sys: System, s: State, step: Step, k: Key)
    requires (step.MarkCancel? || step.GiveUp? || step.CancelBackend?) && Dealt(Apply(sys, s, step), k)
    ensures Dealt(s, k) || k in Apply(sys, s, step).confirmed
  {
        hide Settled, Targets, ActiveKeys, DoStartControl, DoStopControl, DoFailControl, DoBeginReconcile, DoObserve, DoSettle, DoEndReconcile,
      DoSchedule, DoBegin, DoLoseDriver, DoCallStart, DoLand, DoResolve, DoEndLaunch, DoPollTarget, DoApplyCancel, DoStartRecovery, DoRecoverMark,
      DoRecoverLook, DoRecoverGiveUp, DoRecoverAsk, DoRecoverEnd, DoAct, DoCrash;
  }

  /** An edit that cancels nothing. */
  lemma EditCalm(sys: System, s: State, writes: nat, e: Edit)
    requires DiskOk(sys.doc, s.disk, s.past) && s.disk.run.phase != RunCompleted
    requires Applies(sys.doc, s.disk, e) && Legal(s.disk, s.past.gone, e) && !e.Confirm? && !e.Conclude?
    ensures
      var d := Perform(sys.doc, Fresh(s, writes), e).disk;
      d.run.cancelRequested == s.disk.run.cancelRequested && forall k :: CancelsOnly(s.disk, d, k, false)
  {
    hide Perform, Legal, DiskOk, CancelsOnly;
    EditKeeps(sys.doc, Fresh(s, writes), s.past, e);
    forall k: Key ensures CancelsOnly(s.disk, Perform(sys.doc, Fresh(s, writes), e).disk, k, false) {
      EditCancels(sys.doc, Fresh(s, writes), s.past, e, k);
    }
  }

  lemma EditedDealt(s: State, t: State, k: Key)
    requires CancelsOnly(s.disk, t.disk, k, false) && t.canceller == s.canceller && !t.stage.Recovering?
    ensures Dealt(t, k) ==> Dealt(s, k)
  {
  }

  lemma SettleCalm(sys: System, s: State, writes: nat)
    requires Inv(sys, s)
    ensures Calm(s, DoSettle(sys, s, writes))
  {
    hide DiskOk, FlightOk, Perform, Legal, Dealt, CancelsOnly;
    var t := DoSettle(sys, s, writes);
    if s.stage.Observing? && s.stage.settled < |s.stage.refs| && AllObserved(s.stage) && Mutable(s)
       && EditFor(s.stage.refs[s.stage.settled], s.stage.verdicts[s.stage.refs[s.stage.settled]]).Some? {
      var e := EditFor(s.stage.refs[s.stage.settled], s.stage.verdicts[s.stage.refs[s.stage.settled]]).value;
      SettleLegal(sys, s);
      EditCalm(sys, s, writes, e);
      forall k | Dealt(t, k) ensures Dealt(s, k) { EditedDealt(s, t, k); }
    } else {
      forall k | Dealt(t, k) ensures Dealt(s, k) { SameDealt(s, t, k); }
    }
  }

  lemma ResolveCalm(sys: System, s: State, k: Key, writes: nat)
    requires Inv(sys, s)
    ensures Calm(s, DoResolve(sys, s, k, writes))
  {
    hide DiskOk, Perform, Dealt, CancelsOnly;
    var t := DoResolve(sys, s, k, writes);
    if s.stage == Launching && k in s.flights && Joined(s) && Mutable(s) && !(s.flights[k].handle && !s.flights[k].failed) {
      assert FlightOk(s, k);
      var edit := if s.flights[k].handle then Hold(k, CompletionMissing, None) else Lose(k);
      assert Legal(s.disk, s.past.gone, edit);
      if Applies(sys.doc, s.disk, edit) { EditCalm(sys, s, writes, edit); }
      forall j | Dealt(t, j) ensures Dealt(s, j) {
        if Applies(sys.doc, s.disk, edit) { EditedDealt(s, t, j); }
      }
    } else {
      forall j | Dealt(t, j) ensures Dealt(s, j) { SameDealt(s, t, j); }
    }
  }

  /** An action cancels nothing. */
  lemma ActedDealt(sys: System, s: State, action: Action, writes: nat, k: Key)
    requires Inv(sys, s) && Dealt(DoAct(sys, s, action, writes), k)
    ensures Dealt(s, k)
  {
    if AllowedAgain(s, action) || !Allowed(s, action) || !Fits(sys.doc, s.disk.nodes) {
      hide Inv, Repeats, Takes;
      SameDealt(s, DoAct(sys, s, action, writes), k);
    } else {
      ActFrame(sys, s, action, writes);
      if k.node < |s.disk.nodes| { ActNode(sys, s, action, writes, k.node); } else { ActNode(sys, s, action, writes, action.i); }
      hide Inv, ActWrites, Takes;
    }
  }

  lemma ActCalm(sys: System, s: State, action: Action, writes: nat)
    requires Inv(sys, s)
    ensures Calm(s, DoAct(sys, s, action, writes))
  {
    ActFrame(sys, s, action, writes);
    forall k | Dealt(DoAct(sys, s, action, writes), k) ensures Dealt(s, k) { ActedDealt(sys, s, action, writes, k); }
    forall k: Key ensures s.stage != Launching ==> k !in s.flights { if s.stage != Launching { NoFlight(s, k); } }
    hide Inv, ActWrites, Dealt, Takes, Repeats;
  }

  // ----- launching -----

  lemma LaunchKeepsSettled(sys: System, s: State, step: Step)
    requires Inv(sys, s) && SettledOk(s) && (step.Begin? || step.LoseDriver? || step.CallStart? || step.Land?)
    ensures SettledOk(Apply(sys, s, step))
  {
    var t := Apply(sys, s, step);
    LaunchDealt(sys, s, step);
    hide Inv, Dealt, Harmless;
    forall k | Dealt(t, k) ensures Harmless(t, k) { LaunchHarmless(sys, s, step, k); }
    LaunchSpared(sys, s, step);
    hide Apply;
  }

  lemma LaunchHarmless(sys: System, s: State, step: Step, k: Key)
    requires Harmless(s, k) && (step.Begin? || step.LoseDriver? || step.CallStart? || step.Land?)
    ensures Harmless(Apply(sys, s, step), k)
  {
  }

  lemma LaunchSpared(sys: System, s: State, step: Step)
    requires step.Begin? || step.LoseDriver? || step.CallStart? || step.Land?
    ensures var t := Apply(sys, s, step);
            t.spared == s.spared && s.past.gone == t.past.gone && forall k :: k in s.past.started ==> k in t.past.started
  {
  }

  lemma LaunchDealt(sys: System, s: State, step: Step)
    requires step.Begin? || step.LoseDriver? || step.CallStart? || step.Land?
    ensures forall k :: Dealt(Apply(sys, s, step), k) ==> Dealt(s, k)
  {
    var t := Apply(sys, s, step);
    assert t.disk.nodes == s.disk.nodes && t.canceller == s.canceller && t.stage == s.stage;
    assert forall k :: Noted(t.disk, k) ==> Noted(s.disk, k);
    hide Apply, Settled, Noted;
  }

  lemma NoneConfirmed(d: Decision, k: Key)
    ensures !Confirmed(EditsOf(d), k)
  {
  }

  lemma BatchCancelsNone(sys: System, s: State, limit: nat, writes: nat, k: Key)
    requires Inv(sys, s) && s.stage == Idle && Mutable(s) && Plan(sys.doc, s.disk.run.conclusion, s.disk.nodes, limit).Ok?
    requires AllApply(sys.doc, s.disk, EditsOf(Plan(sys.doc, s.disk.run.conclusion, s.disk.nodes, limit).value))
    ensures
      CancelsOnly(s.disk, PerformAll(sys.doc, Fresh(s, writes), EditsOf(Plan(sys.doc, s.disk.run.conclusion, s.disk.nodes, limit).value)).disk, k, false)
  {
    hide DiskOk, FlightsOk, Plan, PerformAll, CancelsOnly, Confirmed;
    DiskNodes(sys.doc, s.disk, s.past);
    var plan := Plan(sys.doc, s.disk.run.conclusion, s.disk.nodes, limit).value;
    DecisionLegal(sys, s.disk, limit, s.past.gone);
    EditsCancel(sys.doc, Fresh(s, writes), s.past, EditsOf(plan), k);
    NoneConfirmed(plan, k);
  }

  /** A batch cancels nothing. */
  lemma ScheduleCancelsNone(sys: System, s: State, limit: nat, writes: nat, k: Key)
    requires Inv(sys, s)
    ensures CancelsOnly(s.disk, DoSchedule(sys, s, limit, writes).disk, k, false)
  {
    hide DiskOk, FlightsOk, CancelOk, ObservingOk, RecoverOk, Plan, PerformAll, Aggregate, AllApply, EditsOf;
    if s.stage == Idle && Mutable(s) && Fits(sys.doc, s.disk.nodes) {
      var plan := Plan(sys.doc, s.disk.run.conclusion, s.disk.nodes, limit);
      if plan.Ok? && AllApply(sys.doc, s.disk, EditsOf(plan.value)) { BatchCancelsNone(sys, s, limit, writes, k); }
    }
  }

  lemma ScheduleDealt(sys: System, s: State, limit: nat, writes: nat, k: Key)
    requires Inv(sys, s) && Dealt(DoSchedule(sys, s, limit, writes), k)
    ensures Dealt(s, k)
  {
    ScheduleCancelsNone(sys, s, limit, writes, k);
    ScheduleCanceller(sys, s, limit, writes);
    ScheduleStage(sys, s, limit, writes);
    hide Inv, DoSchedule;
    if DoSchedule(sys, s, limit, writes) != s { EditedDealt(s, DoSchedule(sys, s, limit, writes), k); }
  }

  lemma ScheduleStage(sys: System, s: State, limit: nat, writes: nat)
    ensures DoSchedule(sys, s, limit, writes) == s || !DoSchedule(sys, s, limit, writes).stage.Recovering?
  {
    hide Plan, PerformAll, AllApply, EditsOf, Aggregate;
  }

  /** What a batch launches was not dealt with. */
  lemma ScheduleKeepsSettled(sys: System, s: State, limit: nat, writes: nat)
    requires Inv(sys, s) && SettledOk(s)
    ensures SettledOk(DoSchedule(sys, s, limit, writes))
  {
    var t := DoSchedule(sys, s, limit, writes);
    ScheduleKeeps(sys, s, limit, writes);
    ScheduleFlights(sys, s, limit, writes);
    ScheduleFrame(sys, s, limit, writes);
    hide DoSchedule, DiskOk, CancelOk, ObservingOk, RecoverOk;
    forall k | Dealt(t, k) ensures Harmless(t, k) {
      ScheduleDealt(sys, s, limit, writes, k);
      assert Harmless(s, k);
      if k in t.flights && k !in s.flights { LaunchedIsFresh(sys, s, t, limit, writes, k); }
    }
  }

  lemma LaunchedIsFresh(sys: System, s: State, t: State, limit: nat, writes: nat, k: Key)
    requires Inv(sys, s) && t == DoSchedule(sys, s, limit, writes) && FlightsOk(t) && k in t.flights && k !in s.disk.attempts
    requires !t.disk.run.cancelRequested
    ensures !Dealt(t, k)
  {
    assert FlightOk(t, k);
    ScheduleCancelsNone(sys, s, limit, writes, k);
    ScheduleCanceller(sys, s, limit, writes);
    ScheduleRequested(sys, s, limit, writes);
    hide DoSchedule, DiskOk, FlightsOk, ObservingOk, RecoverOk;
  }

  lemma ScheduleFlights(sys: System, s: State, limit: nat, writes: nat)
    requires Inv(sys, s)
    ensures
      var t := DoSchedule(sys, s, limit, writes);
      && t.confirmed == s.confirmed && t.spared == s.spared && t.past == s.past
      && (t.flights == s.flights || t.flights == map[] || !t.disk.run.cancelRequested)
      && (t.flights == s.flights && t.flights != map[] ==> t.disk.run == s.disk.run)
  {
    hide DiskOk, CancelOk, ObservingOk, RecoverOk, Plan, PerformAll, Aggregate, AllApply, EditsOf;
    ScheduleRequested(sys, s, limit, writes);
    if s.stage == Idle {
      forall k: Key ensures k !in s.flights { NoFlight(s, k); }
      assert s.flights == map[];
    }
  }

  lemma ScheduleRequested(sys: System, s: State, limit: nat, writes: nat)
    requires Inv(sys, s)
    ensures DoSchedule(sys, s, limit, writes).disk.run.cancelRequested == s.disk.run.cancelRequested
  {
    hide DiskOk, Plan, PerformAll, AllApply, EditsOf, FramedAll;
    DiskNodes(sys.doc, s.disk, s.past);
    if s.stage == Idle && Mutable(s) {
      var plan := Plan(sys.doc, s.disk.run.conclusion, s.disk.nodes, limit);
      if plan.Ok? && AllApply(sys.doc, s.disk, EditsOf(plan.value)) {
        BatchKeeps(sys, s, limit, writes);
        RequestFramed(s.disk, PerformAll(sys.doc, Fresh(s, writes), EditsOf(plan.value)).disk, EditsOf(plan.value));
      }
    }
  }

  lemma RequestFramed(d: Disk, e: Disk, es: seq<Edit>)
    requires FramedAll(d, e, es)
    ensures e.run.cancelRequested == d.run.cancelRequested
  {
  }

  // ----- the canceller -----

  /** A target without a handle whose launch is only prepared was not started, and with the
      cancellation on disk its launcher will not start it; one with a handle that was
      concluded otherwise than as cancelled was started, and then reported gone. */
  lemma PolledHarmless(sys: System, s: State, k: Key)
    requires Inv(sys, s) && AtHand(s.disk, k) && s.disk.run.cancelRequested
    ensures !s.disk.attempts[k].handle && s.disk.attempts[k].launch == Prepared ==> Harmless(s, k)
    ensures s.disk.attempts[k].handle && Concluded(s.disk.attempts[k]) ==> k in s.past.started && k in s.past.gone
  {
    assert AttemptOk(s.disk.nodes, s.past.gone, k, s.disk.attempts[k]);
    if k in s.flights { assert FlightOk(s, k); }
  }

  /** One more good answer. */
  lemma MoreAnswered(s: State, t: State)
    requires SettledOk(s) && t.disk == s.disk && t.flights == s.flights && t.past == s.past && s.confirmed <= t.confirmed && s.spared <= t.spared
    requires forall k :: k in t.spared && k !in s.spared ==> k in s.past.started && k in s.past.gone
    requires forall k :: Dealt(t, k) ==> Dealt(s, k) || Harmless(s, k) || k in t.spared
    ensures SettledOk(t)
  {
    hide Dealt;
    forall k | Dealt(t, k) ensures Harmless(t, k) { if Dealt(s, k) { assert Harmless(s, k); } }
  }

  lemma PollKeepsSettled(sys: System, s: State, k: Key, expired: bool)
    requires Inv(sys, s) && SettledOk(s)
    ensures SettledOk(DoPollTarget(s, k, expired))
  {
    var t := DoPollTarget(s, k, expired);
    if t != s {
      PolledTarget(sys, s, k, expired);
      PolledHarmless(sys, s, k);
      hide Inv, SettledOk, Dealt, Harmless, AtHand;
      forall j | Dealt(t, j) ensures Dealt(s, j) || Harmless(s, j) || j in t.spared { PolledDealt(s, k, expired, j); }
      MoreAnswered(s, t);
    }
  }

  lemma PolledTarget(sys: System, s: State, k: Key, expired: bool)
    requires Inv(sys, s) && DoPollTarget(s, k, expired) != s
    ensures AtHand(s.disk, k) && s.disk.run.cancelRequested
    ensures
      var t := DoPollTarget(s, k, expired);
      && t.disk == s.disk && t.flights == s.flights && t.past == s.past && t.confirmed == s.confirmed && s.spared <= t.spared
      && forall j :: j in t.spared && j !in s.spared ==> j == k && s.disk.attempts[k].handle && Concluded(s.disk.attempts[k])
  {
    hide DiskOk, FlightsOk, ObservingOk, RecoverOk, AtHand;
  }

  /** A good answer is one that was good before, or was not dispatched, or is spared. */
  lemma PolledDealt(s: State, k: Key, expired: bool, j: Key)
    requires k in s.disk.attempts && Dealt(DoPollTarget(s, k, expired), j)
    ensures Dealt(s, j) || (j == k && !s.disk.attempts[k].handle && s.disk.attempts[k].launch == Prepared) || j in DoPollTarget(s, k, expired).spared
  {
    hide Settled;
  }

  /** What the canceller concludes was a target whose answer was good. */
  lemma RecordedIsDealt(sys: System, s: State, writes: nat, k: Key)
    requires Inv(sys, s) && s.canceller.Polling? && s.disk.run.phase != RunCompleted && AllApply(sys.doc, s.disk, CancelEdits(s.canceller))
    ensures CancelsOnly(s.disk, CancelWrites(sys, s, writes).disk, k, Dealt(s, k))
  {
    hide DiskOk, FlightOk, PerformAll, AllApply, CancelEdits, Leftovers, Legal, CancelsOnly, Confirmed, Dealt;
    var es := CancelEdits(s.canceller);
    var p := PerformAll(sys.doc, Fresh(s, writes), es);
    CancelEditsLegal(sys, s);
    EditsKeep(sys.doc, Fresh(s, writes), s.past, es);
    DiskNodes(sys.doc, p.disk, s.past);
    DropsLegal(sys.doc, p.disk, s.past.gone);
    EditsCancel(sys.doc, Fresh(s, writes), s.past, es, k);
    var drops := Drops(Leftovers(p.disk.nodes), WorkflowCancelled);
    EditsCancel(sys.doc, p, s.past, drops, k);
    NoDropConfirms(Leftovers(p.disk.nodes), k);
    ConfirmedIsDealt(s, k);
    NothingCancelled(p.disk, k, false);
    var q := CancelWrites(sys, s, writes);
    RunApart(PerformAll(sys.doc, p, drops).disk, q.disk, k);
    RunApart(p.disk, q.disk, k);
    CancelsTwice(s.disk, p.disk, PerformAll(sys.doc, p, drops).disk, k, Confirmed(es, k), false);
    if q.disk.nodes == p.disk.nodes && q.disk.attempts == p.disk.attempts {
      CancelsTwice(s.disk, p.disk, q.disk, k, Confirmed(es, k), false);
    } else {
      CancelsTwice(s.disk, PerformAll(sys.doc, p, drops).disk, q.disk, k, Confirmed(es, k), false);
    }
    CancelsMore(s.disk, q.disk, k, Confirmed(es, k), Dealt(s, k));
  }

  lemma RunApart(d: Disk, e: Disk, k: Key)
    ensures e.nodes == d.nodes && e.attempts == d.attempts ==> CancelsOnly(d, e, k, false)
  {
  }

  lemma CancelsMore(d: Disk, e: Disk, k: Key, some: bool, more: bool)
    requires CancelsOnly(d, e, k, some) && (some ==> more)
    ensures CancelsOnly(d, e, k, more)
  {
  }

  lemma NoDropConfirms(ids: seq<NodeId>, k: Key)
    ensures !Confirmed(Drops(ids, WorkflowCancelled), k)
  {
  }

  lemma ConfirmedIsDealt(s: State, k: Key)
    requires s.canceller.Polling?
    ensures Confirmed(CancelEdits(s.canceller), k) ==> Dealt(s, k)
  {
  }

  /** Recording a cancellation cancels nothing that was not dealt with. */
  lemma RecordingKeeps(s: State, t: State)
    requires SettledOk(s) && t.past == s.past && t.confirmed == s.confirmed && t.spared == s.spared
    requires t.flights == s.flights || t.flights == map[]
    requires s.disk.run.cancelRequested ==> t.disk.run.cancelRequested
    requires t.canceller == s.canceller || t.canceller == NoCancel
    requires t.stage == s.stage || !t.stage.Recovering?
    requires forall k :: CancelsOnly(s.disk, t.disk, k, Dealt(s, k))
    ensures SettledOk(t)
  {
    forall k | Dealt(t, k) ensures Harmless(t, k) {
      assert CancelsOnly(s.disk, t.disk, k, Dealt(s, k));
      assert Dealt(s, k);
      assert Harmless(s, k);
    }
  }

  lemma ApplyKeepsSettled(sys: System, s: State, writes: nat)
    requires Inv(sys, s) && SettledOk(s)
    ensures SettledOk(DoApplyCancel(sys, s, writes))
  {
    hide DiskOk, FlightOk, CancelWrites, AllApply, CancelsOnly, Dealt, SettledOk, LeftAtWork;
    var t := DoApplyCancel(sys, s, writes);
    if s.canceller.Polling? && AllAnswered(s.canceller) && AllApply(sys.doc, s.disk, CancelEdits(s.canceller)) && s.disk.run.phase != RunCompleted {
      CancelWritesKeep(sys, s, writes);
      forall k: Key ensures CancelsOnly(s.disk, t.disk, k, Dealt(s, k)) { RecordedIsDealt(sys, s, writes, k); }
    } else {
      forall k: Key ensures CancelsOnly(s.disk, t.disk, k, Dealt(s, k)) { NothingCancelled(s.disk, k, Dealt(s, k)); }
    }
    RecordingKeeps(s, t);
  }

  // ----- recovery -----

  lemma RecoverCalm(sys: System, s: State, step: Step)
    requires step.StartRecovery? || step.RecoverMark? || step.RecoverGiveUp? || step.RecoverAsk?
    ensures Calm(s, Apply(sys, s, step))
  {
    forall k | Dealt(Apply(sys, s, step), k) ensures Dealt(s, k) || k in Apply(sys, s, step).confirmed { RecoverDealt(sys, s, step, k); }
    RecoverStays(sys, s, step);
    hide Dealt, Apply;
  }


  lemma RecoverDealt(sys: System, s: State, step: Step, k: Key)
    requires (step.StartRecovery? || step.RecoverMark? || step.RecoverGiveUp? || step.RecoverAsk?) && Dealt(Apply(sys, s, step), k)
    ensures Dealt(s, k) || k in Apply(sys, s, step).confirmed
  {
        hide Settled, DoStartControl, DoStopControl, DoFailControl, DoBeginReconcile, DoObserve, DoSettle, DoEndReconcile, DoSchedule,
      DoBegin, DoLoseDriver, DoCallStart, DoLand, DoResolve, DoEndLaunch, DoMarkCancel, DoPollTarget, DoGiveUp, DoCancelBackend, DoApplyCancel,
      DoRecoverLook, DoRecoverEnd, DoAct, DoCrash;
  }

  lemma LookKeepsSettled(sys: System, s: State, expired: bool)
    requires Inv(sys, s) && SettledOk(s)
    ensures SettledOk(DoRecoverLook(s, expired))
  {
    var t := DoRecoverLook(s, expired);
    if s.stage.Recovering? && s.stage.progress.Looking? && s.stage.progress.k in s.disk.attempts {
      var k := s.stage.progress.k;
      PolledHarmless(sys, s, k);
      hide Inv, Settled;
      assert Noted(s.disk, k) ==> Dealt(s, k);
      forall j | Dealt(t, j) ensures Harmless(t, j) {
        if j != k || Dealt(s, k) { assert Dealt(s, j) && Harmless(s, j); }
      }
    }
  }

  lemma ConcludedIsDealt(sys: System, s: State, first: Option<Key>, writes: nat, k: Key)
    requires DiskOk(sys.doc, s.disk, s.past) && s.disk.run.phase != RunCompleted && s.disk.run.cancelRequested
    requires first.Some? ==> AtHand(s.disk, first.value)
    requires |s.disk.nodes| == |sys.doc.nodes| && (first.Some? ==> Applies(sys.doc, s.disk, Conclude(first.value)))
    ensures CancelsOnly(s.disk, RecoveryWrites(sys, s, first, writes).disk, k, first == Some(k))
  {
    hide DiskOk, PerformAll, Perform, AllApply, Leftovers, Legal, CancelsOnly, Applies, AtHand, Confirmed;
    var p := Fresh(s, writes);
    NothingCancelled(s.disk, k, first == Some(k));
    if first.Some? {
      ConcludeLegal(sys.doc, s.disk, s.past, first.value);
      p := Perform(sys.doc, Fresh(s, writes), Conclude(first.value));
      EditKeeps(sys.doc, Fresh(s, writes), s.past, Conclude(first.value));
      EditCancels(sys.doc, Fresh(s, writes), s.past, Conclude(first.value), k);
    }
    DiskNodes(sys.doc, p.disk, s.past);
    DropsLegal(sys.doc, p.disk, s.past.gone);
    var drops := Drops(Leftovers(p.disk.nodes), WorkflowCancelled);
    EditsCancel(sys.doc, p, s.past, drops, k);
    NoDropConfirms(Leftovers(p.disk.nodes), k);
    var q, r := PerformAll(sys.doc, p, drops), RecoveryWrites(sys, s, first, writes);
    RunApart(q.disk, r.disk, k);
    CancelsTwice(s.disk, p.disk, q.disk, k, first == Some(k), false);
    CancelsTwice(s.disk, q.disk, r.disk, k, first == Some(k), false);
  }

  lemma EndKeepsSettled(sys: System, s: State, writes: nat)
    requires Inv(sys, s) && SettledOk(s)
    ensures SettledOk(DoRecoverEnd(sys, s, writes))
  {
    hide DiskOk, FlightOk, RecoveryWrites, CancelsOnly, SettledOk, LeftAtWork, Quiet, Subdued;
    var t := DoRecoverEnd(sys, s, writes);
    if s.stage.Recovering? && s.stage.progress.Ending? && s.disk.run.phase != RunCompleted {
      var first := s.stage.progress.first;
      RecoveryWritesKeep(sys, s, first, writes);
      QuietRequested(s.disk, RecoveryWrites(sys, s, first, writes).disk);
      forall k: Key ensures CancelsOnly(s.disk, t.disk, k, Dealt(s, k)) {
        ConcludedIsDealt(sys, s, first, writes, k);
        CancelsMore(s.disk, t.disk, k, first == Some(k), Dealt(s, k));
      }
    } else {
      forall k: Key ensures CancelsOnly(s.disk, t.disk, k, Dealt(s, k)) {
        NothingCancelled(s.disk, k, Dealt(s, k));
        RunApart(s.disk, t.disk, k);
        if t.disk.nodes == s.disk.nodes && t.disk.attempts == s.disk.attempts { CancelsMore(s.disk, t.disk, k, false, Dealt(s, k)); }
      }
    }
    hide Dealt;
    RecordingKeeps(s, t);
  }

  lemma QuietRequested(d: Disk, e: Disk)
    requires Quiet(d, e)
    ensures e.run.cancelRequested == d.run.cancelRequested
  {
  }

  // ----- every reachable state -----

  lemma StepKeepsSettled(sys: System, s: State, step: Step)
    requires Inv(sys, s) && SettledOk(s)
    ensures SettledOk(Apply(sys, s, step))
  {
    hide Inv, SettledOk, Calm, DoSchedule, DoPollTarget, DoApplyCancel, DoRecoverLook, DoRecoverEnd, DoBegin, DoLand, DoCallStart, DoSettle, DoResolve,
      DoAct, DoMarkCancel, DoRecoverMark, DoObserve;
    match step
    case Schedule(limit, writes) => ScheduleKeepsSettled(sys, s, limit, writes);
    case Begin(_, _) => LaunchKeepsSettled(sys, s, step);
    case LoseDriver(_) => LaunchKeepsSettled(sys, s, step);
    case CallStart(_, _, _) => LaunchKeepsSettled(sys, s, step);
    case Land(_, _) => LaunchKeepsSettled(sys, s, step);
    case PollTarget(k, expired) => PollKeepsSettled(sys, s, k, expired);
    case ApplyCancel(writes) => ApplyKeepsSettled(sys, s, writes);
    case RecoverLook(expired) => LookKeepsSettled(sys, s, expired);
    case RecoverEnd(writes) => EndKeepsSettled(sys, s, writes);
    case _ =>
      CalmStep(sys, s, step);
      CalmKeeps(s, Apply(sys, s, step));
  }

  lemma CalmStep(sys: System, s: State, step: Step)
    requires Inv(sys, s)
    requires !step.Schedule? && !step.Begin? && !step.LoseDriver? && !step.CallStart? && !step.Land? && !step.PollTarget? && !step.ApplyCancel?
    requires !step.RecoverLook? && !step.RecoverEnd?
    ensures Calm(s, Apply(sys, s, step))
  {
    hide Inv, Calm, DoSettle, DoResolve, DoAct, DoMarkCancel, DoRecoverMark, DoObserve;
    match step
    case Settle(writes) => SettleCalm(sys, s, writes);
    case Resolve(k, writes) => ResolveCalm(sys, s, k, writes);
    case Act(action, writes) => ActCalm(sys, s, action, writes);
    case MarkCancel(_) => CancellerCalm(sys, s, step);
    case GiveUp(_) => CancellerCalm(sys, s, step);
    case CancelBackend(_, _) => CancellerCalm(sys, s, step);
    case StartRecovery(_) => RecoverCalm(sys, s, step);
    case RecoverMark(_) => RecoverCalm(sys, s, step);
    case RecoverGiveUp => RecoverCalm(sys, s, step);
    case RecoverAsk(_) => RecoverCalm(sys, s, step);
    case _ => ControlCalm(sys, s, step);
  }

  lemma {:induction false} ReachedSettled(sys: System, steps: seq<Step>)
    requires Ordered(sys.doc)
    ensures SettledOk(After(sys, steps))
  {
    hide Apply, Inv;
    if steps == [] {
      InitialSettled(sys);
    } else {
      var n := |steps| - 1;
      ReachedSettled(sys, steps[..n]);
      ReachedInv(sys, steps[..n]);
      hide SettledOk;
      StepKeepsSettled(sys, After(sys, steps[..n]), steps[n]);
    }
  }

  lemma InitialSettled(sys: System)
    ensures SettledOk(Initial(sys))
  {
  }

  // ----- guarantees -----

  /** In every reachable state, whichever cancellation recorded an attempt as cancelled, in
      its node's file or its own, and however far it came, the attempt was never started or
      the backend confirmed its cancellation, unless a canceller found it already
      concluded. That exception is exact: such an attempt had been started, and without a
      confirmation it is precisely where the guarantee fails. */
  lemma NoOrphan(sys: System, steps: seq<Step>, k: Key)
    requires Ordered(sys.doc) && (Settled(After(sys, steps).disk.nodes, k) || Noted(After(sys, steps).disk, k))
    ensures
      var s := After(sys, steps);
      && (k !in s.past.started || k in s.confirmed <==> k !in s.spared || k in s.confirmed)
      && (k in s.spared ==> k in s.past.gone)
  {
    ReachedSettled(sys, steps);
    assert Dealt(After(sys, steps), k);
    assert Harmless(After(sys, steps), k);
  }

  /** When recording a cancellation completes the run, every active node is concluded as
      cancelled, or its attempt was recorded as cancelled before; so with the guarantee
      above no execution is left, whether this cancellation settled it or one that did not
      get to the end. Only the nodes of the second kind are not done. */
  lemma CancellationCompletes(sys: System, steps: seq<Step>, writes: nat)
    requires Ordered(sys.doc) && After(sys, steps).disk.run.phase != RunCompleted
    ensures
      var s := After(sys, steps);
      var t := Apply(sys, s, ApplyCancel(writes));
      t.disk.run.phase == RunCompleted ==>
        && t.disk.run.conclusion == Cancelled && t.disk.run.cancelRequested && s.canceller.Polling?
        && (AllDone(t.disk.nodes) <==> !LeftAtWork(s.disk.nodes, s.canceller.targets))
        && forall i :: 0 <= i < |s.disk.nodes| && Active(s.disk.nodes[i]) ==>
             var k := Key(i, s.disk.nodes[i].attempt);
             if k in s.canceller.targets then Settled(t.disk.nodes, k) else Noted(s.disk, k)
  {
    hide FlightsOk, ObservingOk, PerformAll, DiskOk, AllApply, Settled, LeftAtWork, AllDone;
    ReachedInv(sys, steps);
    var s := After(sys, steps);
    hide After;
    if s.canceller.Polling? && AllAnswered(s.canceller) && AllApply(sys.doc, s.disk, CancelEdits(s.canceller)) {
      CompletesWhole(sys, s, writes);
      var t := Apply(sys, s, ApplyCancel(writes));
      forall i | 0 <= i < |s.disk.nodes| && Active(s.disk.nodes[i]) && t.disk.run.phase == RunCompleted
        ensures var k := Key(i, s.disk.nodes[i].attempt); if k in s.canceller.targets then Settled(t.disk.nodes, k) else Noted(s.disk, k)
      {
        if Key(i, s.disk.nodes[i].attempt) in s.canceller.targets { TargetIsSettled(sys, s, writes, i); }
      }
    }
  }

  lemma TargetIsSettled(sys: System, s: State, writes: nat, i: NodeId)
    requires Inv(sys, s) && s.canceller.Polling? && s.disk.run.phase != RunCompleted && AllApply(sys.doc, s.disk, CancelEdits(s.canceller))
    requires i < |s.disk.nodes| && Key(i, s.disk.nodes[i].attempt) in s.canceller.targets
    requires CancelWrites(sys, s, writes).disk.run.phase == RunCompleted
    ensures Settled(CancelWrites(sys, s, writes).disk.nodes, Key(i, s.disk.nodes[i].attempt))
  {
    hide DiskOk, FlightOk, PerformAll, AllApply, Legal, Leftovers, CancelEdits, CancelledNode, LeftAtWork;
    var es := CancelEdits(s.canceller);
    CompletesWhole(sys, s, writes);
    CancelEditsLegal(sys, s);
    var p := PerformAll(sys.doc, Fresh(s, writes), es);
    EditsKeep(sys.doc, Fresh(s, writes), s.past, es);
    DiskNodes(sys.doc, p.disk, s.past);
    DropsLegal(sys.doc, p.disk, s.past.gone);
    if !p.ok { FaultsStay(sys.doc, p, Drops(Leftovers(p.disk.nodes), WorkflowCancelled)); }
    var j := TargetEdit(s, i);
    ConfirmationHolds(sys.doc, Fresh(s, writes), s.past, es, j);
    DropsSpareDone(sys.doc, p, s.past, i);
  }

  lemma TargetEdit(s: State, i: NodeId) returns (j: nat)
    requires s.canceller.Polling? && AllConfirmed(s.canceller) && i < |s.disk.nodes| && Key(i, s.disk.nodes[i].attempt) in s.canceller.targets
    ensures j < |CancelEdits(s.canceller)| && CancelEdits(s.canceller)[j].Confirm? && NodeOf(CancelEdits(s.canceller)[j]) == i
  {
    var k, targets := Key(i, s.disk.nodes[i].attempt), s.canceller.targets;
    j :| 0 <= j < |targets| && targets[j] == k;
  }

  lemma DropsSpareDone(doc: Document, p: Progress, past: Past, i: NodeId)
    requires DiskOk(doc, p.disk, past) && p.disk.run.phase != RunCompleted && i < |p.disk.nodes| && CancelledNode(p.disk.nodes[i])
    requires AllApply(doc, p.disk, Drops(Leftovers(p.disk.nodes), WorkflowCancelled))
    ensures PerformAll(doc, p, Drops(Leftovers(p.disk.nodes), WorkflowCancelled)).disk.nodes[i] == p.disk.nodes[i]
  {
    hide DiskOk, PerformAll, Legal, AllApply;
    DiskNodes(doc, p.disk, past);
    DropsLegal(doc, p.disk, past.gone);
    var drops := Drops(Leftovers(p.disk.nodes), WorkflowCancelled);
    EditsKeep(doc, p, past, drops);
    LeftoversExactly(p.disk.nodes);
    hide Leftovers;
    forall m | 0 <= m < |drops| ensures NodeOf(drops[m]) != i { assert Leftovers(p.disk.nodes)[m] in Leftovers(p.disk.nodes); }
    assert !Touched(drops, i);
  }

  /** A confirmation that went through stays. */
  lemma {:induction false} ConfirmationHolds(doc: Document, p: Progress, past: Past, es: seq<Edit>, j: nat)
    requires DiskOk(doc, p.disk, past) && p.disk.run.phase != RunCompleted
    requires AllApply(doc, p.disk, es) && AllLegal(p.disk, past.gone, es) && Apart(es)
    requires j < |es| && es[j].Confirm? && PerformAll(doc, p, es).ok
    ensures var n := PerformAll(doc, p, es).disk.nodes[NodeOf(es[j])]; CancelledNode(n) && n.attempt == p.disk.nodes[NodeOf(es[j])].attempt
    decreases |es|
  {
    hide DiskOk, Perform, Legal, CancelledNode;
    var p1, rest := Perform(doc, p, es[0]), es[1..];
    EditKeeps(doc, p, past, es[0]);
    RestLegal(doc, p, past, es);
    assert forall i :: 0 <= i < |rest| ==> rest[i] == es[i + 1];
    if !p1.ok { FaultsStay(doc, p1, rest); }
    if j > 0 {
      ConfirmationHolds(doc, p1, past, rest, j - 1);
      assert NodeOf(es[j]) != NodeOf(es[0]);
    } else {
      EditsKeep(doc, p1, past, rest);
      assert !Touched(rest, NodeOf(es[0]));
      ConfirmCancels(doc, p, es[0]);
    }
  }

  lemma ConfirmCancels(doc: Document, p: Progress, e: Edit)
    requires Applies(doc, p.disk, e) && e.Confirm? && Perform(doc, p, e).ok
    ensures var n := Perform(doc, p, e).disk.nodes[NodeOf(e)]; CancelledNode(n) && n.attempt == p.disk.nodes[NodeOf(e)].attempt
  {
  }
}
