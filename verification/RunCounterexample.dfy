/** Runs in which a crash or a fault in the wrong place leaves something undone for good. */
module RunCounterexample {
  import opened Workflow
  import opened Scheduler
  import opened Topology
  import opened RunMachine
  import opened RunInvariant
  import opened RunSteps
  import opened RunGuarantees
  import opened RunProgress
  import opened RunCancellation
  import opened RunMeasure

  /** One agent, nothing before it. */
  const SINGLE := System(Document([Definition(Agent, [], None)], 1))

  const ATTEMPT := Key(0, 1)

  /** One more step of a run. */
  lemma Next(s: State, steps: seq<Step>, step: Step) returns (t: State, longer: seq<Step>)
    requires s == After(SINGLE, steps)
    ensures t == Apply(SINGLE, s, step) && t == After(SINGLE, longer)
  {
    t, longer := Apply(SINGLE, s, step), steps + [step];
    assert longer[..|steps|] == steps;
  }

  lemma FatedSingle(only: Fate, f: Fate)
    ensures Fated([only], f, 1) == if only == f then [0] else []
  {
    assert Fated([only], f, 0) == [];
  }

  lemma SinglePlan(n: Node, limit: nat)
    requires n == NewNode(SINGLE.doc.nodes[0])
    ensures Fits(SINGLE.doc, [n])
    ensures var plan := Plan(SINGLE.doc, NoConclusion, [n], limit); plan.Ok? && EditsOf(plan.value) == [Assign(0)] && plan.value.readyAgents == [0]
  {
    var stop := Stops(NoConclusion, [n]);
    assert FateOf(SINGLE.doc, [n], stop, 0) == Launch;
    var fates := Fates(SINGLE.doc, [n], stop, 1);
    assert fates == [Launch];
    forall f: Fate { FatedSingle(Launch, f); }
    assert [n][..0] == [] && CountActive([n]) == 0;
  }

  ghost predicate Quietly(s: State, stage: Stage)
  {
    && s.stage == stage && s.canceller == NoCancel && !s.stopping && s.confirmed == {}
    && s.disk.run == Run(RunRunning, NoConclusion, NoReason, false)
  }

  const RUNNING := Node(Agent, Running, NoConclusion, NoReason, None, 1)

  lemma Controlled() returns (s: State, steps: seq<Step>)
    ensures s == After(SINGLE, steps) && Quietly(s, Idle) && s.flights == map[] && s.disk.nodes == [NewNode(SINGLE.doc.nodes[0])]
    ensures s.disk.attempts == map[] && s.past.accepted == [0] && !s.torn
  {
    var s0 := Initial(SINGLE);
    assert s0 == After(SINGLE, []);
    assert s0.past.accepted == [0] && s0.disk.nodes == [NewNode(SINGLE.doc.nodes[0])];
    hide After;
    s, steps := Next(s0, [], StartControl(true, 9));
  }

  /** The agent is assigned. */
  lemma Scheduled() returns (s: State, steps: seq<Step>)
    ensures s == After(SINGLE, steps) && Quietly(s, Launching) && s.flights == map[ATTEMPT := Queued]
    ensures s.disk.nodes == [RUNNING] && s.disk.attempts == map[ATTEMPT := FRESH]
    ensures s.past.accepted == [0] && !s.torn
  {
    hide After, DoSchedule;
    s, steps := Controlled();
    ScheduledOnce(s);
    s, steps := Next(s, steps, Schedule(0, 9));
  }

  /** The store faults between the new attempt's file and its node: the file is left, and
      from then on no batch, under any limit and with any number of writes, gets on. */
  lemma StalledByLeftFile() returns (steps: seq<Step>)
    ensures
      var s := After(SINGLE, steps);
      && s.disk.nodes == [NewNode(SINGLE.doc.nodes[0])] && s.stage == Idle && Mutable(s) && LeftFile(s.disk, 0)
      && forall limit: nat, writes: nat :: DoSchedule(SINGLE, s, limit, writes).disk == s.disk && DoSchedule(SINGLE, s, limit, writes).stage == Failing
  {
    hide After, DoSchedule, Inv;
    var s: State;
    s, steps := LeftOnce();
    SingleInv(s, steps);
    forall limit: nat, writes: nat ensures DoSchedule(SINGLE, s, limit, writes).disk == s.disk && DoSchedule(SINGLE, s, limit, writes).stage == Failing {
      StalledBatch(s, limit, writes);
    }
  }

  lemma SingleInv(s: State, steps: seq<Step>)
    requires s == After(SINGLE, steps)
    ensures Inv(SINGLE, s)
  {
    hide Inv;
    ReachedInv(SINGLE, steps);
  }

  lemma StalledBatch(s: State, limit: nat, writes: nat)
    requires Inv(SINGLE, s) && Quietly(s, Idle) && s.disk.nodes == [NewNode(SINGLE.doc.nodes[0])] && s.disk.attempts == map[ATTEMPT := FRESH]
    ensures var t := DoSchedule(SINGLE, s, limit, writes); t.disk == s.disk && t.stage == Failing
  {
    hide Inv, Plan, DoSchedule, EditsOf;
    SinglePlan(s.disk.nodes[0], limit);
    LeftFileStalls(SINGLE, s, limit, writes);
  }

  lemma LeftOnce() returns (s: State, steps: seq<Step>)
    ensures s == After(SINGLE, steps) && Quietly(s, Idle) && s.flights == map[]
    ensures s.disk.nodes == [NewNode(SINGLE.doc.nodes[0])] && s.disk.attempts == map[ATTEMPT := FRESH]
  {
    hide After, DoSchedule;
    s, steps := Controlled();
    CutOnce(s);
    s, steps := Next(s, steps, Schedule(0, 1));
    s, steps := Next(s, steps, Crash);
    s, steps := Next(s, steps, StartControl(true, 9));
  }

  lemma CutOnce(s: State)
    requires Quietly(s, Idle) && s.disk.nodes == [NewNode(SINGLE.doc.nodes[0])] && s.disk.attempts == map[]
    ensures
      var t := Apply(SINGLE, s, Schedule(0, 1));
      Quietly(t, Failing) && t.disk.nodes == s.disk.nodes && t.disk.attempts == map[ATTEMPT := FRESH]
  {
    hide Plan;
    SinglePlan(s.disk.nodes[0], 0);
    var p := PerformAll(SINGLE.doc, Fresh(s, 1), [Assign(0)]);
    assert p == Perform(SINGLE.doc, Fresh(s, 1), Assign(0));
  }

  lemma ScheduledOnce(s: State)
    requires Quietly(s, Idle) && s.disk.nodes == [NewNode(SINGLE.doc.nodes[0])] && s.disk.attempts == map[]
    ensures
      var t := Apply(SINGLE, s, Schedule(0, 9));
      Quietly(t, Launching) && t.flights == map[ATTEMPT := Queued] && t.disk.nodes == [RUNNING] && t.disk.attempts == map[ATTEMPT := FRESH]
      && t.past == s.past && t.torn == s.torn
  {
    hide Plan;
    SinglePlan(s.disk.nodes[0], 0);
    var p := PerformAll(SINGLE.doc, Fresh(s, 9), [Assign(0)]);
    assert p == Perform(SINGLE.doc, Fresh(s, 9), Assign(0));
    assert p.disk.nodes == [RUNNING];
    assert NewFlights(p.disk.nodes, [0]) == map[ATTEMPT := Queued];
  }

  /** It is dispatched and started. */
  lemma Started() returns (s: State, steps: seq<Step>)
    ensures s == After(SINGLE, steps) && Quietly(s, Launching) && s.flights == map[ATTEMPT := Called(true, false)]
    ensures s.disk.nodes == [RUNNING] && s.disk.attempts == map[ATTEMPT := FRESH.(launch := Dispatching)]
    ensures ATTEMPT in s.past.started
  {
    hide DoSchedule, After;
    s, steps := Scheduled();
    s, steps := Next(s, steps, Begin(ATTEMPT, 9));
    s, steps := Next(s, steps, CallStart(ATTEMPT, true, false));
  }

  /** Its handle is saved. */
  lemma Launched() returns (s: State, steps: seq<Step>)
    ensures s == After(SINGLE, steps) && Quietly(s, Idle) && s.flights == map[]
    ensures s.disk.nodes == [RUNNING]
    ensures s.disk.attempts == map[ATTEMPT := Attempt(HandlePersisted, true, Running, NoConclusion, NoReason, false)]
    ensures ATTEMPT in s.past.started
  {
    hide DoSchedule, After;
    s, steps := Started();
    s, steps := Next(s, steps, Land(ATTEMPT, 9));
    s, steps := Next(s, steps, Resolve(ATTEMPT, 9));
    s, steps := Next(s, steps, EndLaunch);
  }

  /** The backend reports the execution gone, and the engine crashes after concluding the
      attempt but before concluding its node. */
  lemma CrashedWhileConcluding() returns (s: State, steps: seq<Step>)
    ensures s == After(SINGLE, steps) && Quietly(s, Off) && s.flights == map[] && s.disk.nodes == [RUNNING]
    ensures s.disk.attempts == map[ATTEMPT := Attempt(HandlePersisted, true, Completed, Indeterminate, NoReason, false)]
    ensures ATTEMPT in s.past.started
  {
    hide After, ActiveKeys;
    s, steps := ReportedGone();
    s, steps := Next(s, steps, Settle(1));
    s, steps := Next(s, steps, Crash);
  }

  lemma ReportedGone() returns (s: State, steps: seq<Step>)
    ensures s == After(SINGLE, steps) && s.flights == map[] && s.disk.nodes == [RUNNING]
    ensures s.stage == Observing([ATTEMPT], map[ATTEMPT := Report(Gone)], 0) && Quietly(s, s.stage)
    ensures s.disk.attempts == map[ATTEMPT := Attempt(HandlePersisted, true, Running, NoConclusion, NoReason, false)]
    ensures ATTEMPT in s.past.started
  {
    hide After, ActiveKeys;
    s, steps := Launched();
    OneActive();
    s, steps := Next(s, steps, BeginReconcile);
    s, steps := Next(s, steps, Observe(ATTEMPT, Gone));
  }

  /** A cancellation marks the run and polls the attempt, which it finds concluded. */
  lemma Polled() returns (s: State, steps: seq<Step>)
    ensures s == After(SINGLE, steps) && s.disk.nodes == [RUNNING] && ATTEMPT in s.disk.attempts && s.disk.run.phase == Cancelling
    ensures s.canceller == Polling([ATTEMPT], map[ATTEMPT := Answered(true)])
    ensures ATTEMPT in s.past.started && s.confirmed == {}
  {
    hide After, DoMarkCancel, DoPollTarget;
    s, steps := CrashedWhileConcluding();
    var marked := MarkedOnce(s);
    s, steps := Next(s, steps, MarkCancel(9));
    var polled := PolledOnce(s);
    s, steps := Next(s, steps, PollTarget(ATTEMPT, false));
  }

  lemma OneActive()
    ensures ActiveKeys([RUNNING]) == [ATTEMPT]
  {
    assert [RUNNING][..0] == [] && ActiveKeys([]) == [];
  }

  lemma OneTarget(d: Disk)
    requires ATTEMPT in d.attempts && d.attempts[ATTEMPT].conclusion == Indeterminate
    ensures Targets(d, [ATTEMPT]) == [ATTEMPT]
  {
    var none: seq<Key> := [];
    assert [ATTEMPT][..0] == none && Targets(d, none) == none;
  }

  lemma MarkedOnce(s: State) returns (t: State)
    requires Quietly(s, Off) && s.disk.nodes == [RUNNING]
    requires s.disk.attempts == map[ATTEMPT := Attempt(HandlePersisted, true, Completed, Indeterminate, NoReason, false)]
    ensures t == DoMarkCancel(s, 9)
    ensures t.canceller == Polling([ATTEMPT], map[ATTEMPT := Unasked]) && t.past == s.past && t.confirmed == s.confirmed
    ensures t.disk == s.disk.(run := t.disk.run) && t.disk.run.phase == Cancelling
  {
    hide Targets, ActiveKeys;
    t := DoMarkCancel(s, 9);
    OneActive();
    OneTarget(t.disk);
    assert (map k | k in [ATTEMPT] :: Unasked) == map[ATTEMPT := Unasked];
  }

  lemma PolledOnce(s: State) returns (t: State)
    requires s.canceller == Polling([ATTEMPT], map[ATTEMPT := Unasked])
    requires s.disk.attempts == map[ATTEMPT := Attempt(HandlePersisted, true, Completed, Indeterminate, NoReason, false)]
    ensures t == DoPollTarget(s, ATTEMPT, false)
    ensures t == s.(canceller := Polling([ATTEMPT], map[ATTEMPT := Answered(true)]), spared := s.spared + {ATTEMPT})
  {
    t := DoPollTarget(s, ATTEMPT, false);
    assert s.canceller.polls[ATTEMPT := Answered(true)] == map[ATTEMPT := Answered(true)];
  }

  /** The guarantee without its exception is false: here a run completes as cancelled while
      an attempt that was started has had no cancellation confirmed. */
  lemma OrphanAfterCrash() returns (steps: seq<Step>, k: Key)
    ensures
      var s := After(SINGLE, steps);
      && s.disk.run.phase == RunCompleted && s.disk.run.conclusion == Cancelled
      && Settled(s.disk.nodes, k) && k in s.past.started && k !in s.confirmed
  {
    hide After, Apply;
    var s: State;
    s, steps := Polled();
    k := ATTEMPT;
    RecordedCancel(s);
    s, steps := Next(s, steps, ApplyCancel(9));
  }

  lemma ConfirmedOnce(s: State) returns (p: Progress)
    requires s.disk.nodes == [RUNNING] && ATTEMPT in s.disk.attempts && s.disk.run.phase == Cancelling
    requires s.canceller == Polling([ATTEMPT], map[ATTEMPT := Answered(true)])
    ensures AllApply(SINGLE.doc, s.disk, CancelEdits(s.canceller))
    ensures p == PerformAll(SINGLE.doc, Fresh(s, 9), CancelEdits(s.canceller)) && p.ok && p.left > 0
    ensures |p.disk.nodes| == 1 && p.disk.nodes[0].phase == Completed && Settled(p.disk.nodes, ATTEMPT)
  {
    var es := CancelEdits(s.canceller);
    assert es == [Confirm(ATTEMPT)] && es[1..] == [];
    p := Perform(SINGLE.doc, Fresh(s, 9), Confirm(ATTEMPT));
    assert PerformAll(SINGLE.doc, p, []) == p && PerformAll(SINGLE.doc, Fresh(s, 9), es) == p;
  }

  lemma RecordedCancel(s: State)
    requires s.disk.nodes == [RUNNING] && ATTEMPT in s.disk.attempts && s.disk.run.phase == Cancelling
    requires s.canceller == Polling([ATTEMPT], map[ATTEMPT := Answered(true)])
    ensures
      var t := Apply(SINGLE, s, ApplyCancel(9));
      t.disk.run.phase == RunCompleted && t.disk.run.conclusion == Cancelled && Settled(t.disk.nodes, ATTEMPT) && t.past == s.past && t.confirmed == s.confirmed
  {
    var p := ConfirmedOnce(s);
    hide AllApply, Settled, CancelEdits;
    assert p.disk.nodes[..0] == [] && Leftovers(p.disk.nodes) == [];
    assert Drops([], WorkflowCancelled) == [];
  }

  // ----- an action cut short -----

  const LOST := Node(Agent, Completed, Indeterminate, NoReason, None, 1)

  lemma DriverGone() returns (s: State, steps: seq<Step>)
    ensures s == After(SINGLE, steps) && Quietly(s, Launching) && s.flights == map[ATTEMPT := Landed(false, true)]
    ensures s.disk.nodes == [RUNNING] && ATTEMPT in s.disk.attempts && s.past.accepted == [0] && !s.torn
  {
    hide After, DoSchedule;
    s, steps := Scheduled();
    s, steps := Next(s, steps, Begin(ATTEMPT, 9));
    s, steps := Next(s, steps, LoseDriver(ATTEMPT));
  }

  /** The driver is gone when the agent is to be started, and the launch is recorded as lost. */
  lemma RecordedLost() returns (s: State, steps: seq<Step>)
    ensures s == After(SINGLE, steps) && Quietly(s, Idle) && s.disk.nodes == [LOST] && s.past.accepted == [0] && !s.torn
  {
    hide After, DoResolve;
    s, steps := DriverGone();
    LostOnce(s);
    s, steps := Next(s, steps, Resolve(ATTEMPT, 9));
    s, steps := Next(s, steps, EndLaunch);
  }

  lemma LostOnce(s: State)
    requires Quietly(s, Launching) && s.flights == map[ATTEMPT := Landed(false, true)] && s.disk.nodes == [RUNNING] && ATTEMPT in s.disk.attempts
    ensures var t := DoResolve(SINGLE, s, ATTEMPT, 9);
            Quietly(t, Launching) && t.flights == map[] && t.disk.nodes == [LOST] && t.past == s.past && t.torn == s.torn
  {
    assert s.flights - {ATTEMPT} == map[];
    assert Joined(s);
  }

  lemma DonePlan(limit: nat)
    ensures Fits(SINGLE.doc, [LOST])
    ensures var plan := Plan(SINGLE.doc, NoConclusion, [LOST], limit); plan.Ok? && EditsOf(plan.value) == [] && plan.value.readyAgents == []
  {
    var stop := Stops(NoConclusion, [LOST]);
    assert FateOf(SINGLE.doc, [LOST], stop, 0) == Nothing;
    var fates := Fates(SINGLE.doc, [LOST], stop, 1);
    assert fates == [Nothing];
    forall f: Fate { FatedSingle(Nothing, f); }
  }

  lemma AggregatedOnce(s: State)
    requires Quietly(s, Idle) && s.disk.nodes == [LOST]
    ensures var t := DoSchedule(SINGLE, s, 0, 9); t == s.(disk := t.disk) && t.disk.nodes == s.disk.nodes && t.disk.run.phase == RunCompleted
  {
    hide Plan, Aggregate;
    DonePlan(0);
    assert AllApply(SINGLE.doc, s.disk, []) && PerformAll(SINGLE.doc, Fresh(s, 9), []) == Fresh(s, 9);
    CompletedWhenDone(s.disk.run, SINGLE.doc, s.disk.nodes);
  }

  /** The run completes, and the controller ends. */
  lemma CompletedLost() returns (s: State, steps: seq<Step>)
    ensures s == After(SINGLE, steps) && s.stage == Off && s.canceller == NoCancel && !s.torn && s.past.accepted == [0]
    ensures s.disk.nodes == [LOST] && s.disk.run.phase == RunCompleted
  {
    hide After, DoSchedule;
    s, steps := RecordedLost();
    AggregatedOnce(s);
    s, steps := Next(s, steps, Schedule(0, 9));
    s, steps := Next(s, steps, Crash);
  }

  /** A retry on the completed run is cut after its first write: the run is still recorded
      as completed, and its node is about to start over. */
  lemma CompletedButNotDone() returns (steps: seq<Step>)
    ensures
      var s := After(SINGLE, steps);
      s.disk.run.phase == RunCompleted && s.torn && |s.disk.nodes| == 1 && s.disk.nodes[0].phase == Ready && !AllDone(s.disk.nodes)
  {
    hide After, ActWrites;
    var s: State;
    s, steps := CompletedLost();
    CutRetry(s);
    s, steps := Next(s, steps, Act(Retry(0, true), 1));
  }

  lemma CutRetry(s: State)
    requires s.stage == Off && s.canceller == NoCancel && s.past.accepted == [0] && s.disk.nodes == [LOST]
    ensures var t := DoAct(SINGLE, s, Retry(0, true), 1);
            t.torn && t.disk.run == s.disk.run && |t.disk.nodes| == 1 && t.disk.nodes[0].phase == Ready
  {
    assert Fits(SINGLE.doc, s.disk.nodes) && Allowed(s, Retry(0, true));
    ActWritesNodes(SINGLE.doc, Fresh(s, 1), Retry(0, true));
    OneWriteSpent(SINGLE.doc, Fresh(s, 1), Retry(0, true));
    hide ActWrites;
  }

  /** The first write of an action is its target's. */
  lemma OneWriteSpent(doc: Document, p: Progress, action: Action)
    requires Fits(doc, p.disk.nodes) && Takes(p.disk.nodes, action) && p.ok && p.left == 1
    ensures ActWrites(doc, p, action).left == 0 || !ActWrites(doc, p, action).ok
  {
    if !action.Decide? { NoneLeft(doc, WriteNode(p, action.i, Target(p.disk.nodes[action.i], action)), action.i, |p.disk.nodes|); }
  }

  lemma {:induction false} NoneLeft(doc: Document, p: Progress, i: NodeId, n: nat)
    requires Fits(doc, p.disk.nodes) && n <= |p.disk.nodes| && p.left == 0
    ensures ResetWrites(doc, p, i, n).left == 0
  {
    if n > 0 { NoneLeft(doc, p, i, n - 1); }
  }
}
