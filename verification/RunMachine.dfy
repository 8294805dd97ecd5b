/** The run machine: one run's durable files, its controller, the launches in flight and
    the canceller, as interleaved atomic steps. Every section that the engine runs under
    its mutex is one step; reads outside the mutex and calls to the backend are steps of
    their own. A durable write may fail, which ends the section after the writes before it. */
module RunMachine {
  import opened Workflow
  import opened Scheduler
  import opened Topology

  // ----- durable state -----

  datatype Key = Key(node: NodeId, number: nat)

  datatype LaunchState = Prepared | Dispatching | HandlePersisted | FinishedWithoutHandle

  datatype Attempt = Attempt(launch: LaunchState, handle: bool, phase: NodePhase, conclusion: Conclusion,
    reason: Reason, consumed: bool)

  datatype Disk = Disk(run: Run, nodes: seq<Node>, attempts: map<Key, Attempt>)

  const FRESH := Attempt(Prepared, false, Running, NoConclusion, NoReason, false)

  /** A section at work: what is on disk, how many writes succeed before the store
      faults, and whether it has faulted. */
  datatype Progress = Progress(disk: Disk, left: nat, ok: bool)

  function WriteNode(p: Progress, i: NodeId, n: Node): Progress
    requires i < |p.disk.nodes|
  {
    if !p.ok || p.left == 0 then p.(ok := false)
    else Progress(p.disk.(nodes := p.disk.nodes[i := n]), p.left - 1, true)
  }

  /** Attempts are written once: creating one that exists fails. */
  function CreateAttempt(p: Progress, k: Key, a: Attempt): Progress
  {
    if !p.ok || p.left == 0 || k in p.disk.attempts then p.(ok := false)
    else Progress(p.disk.(attempts := p.disk.attempts[k := a]), p.left - 1, true)
  }

  function UpdateAttempt(p: Progress, k: Key, a: Attempt): Progress
  {
    if !p.ok || p.left == 0 then p.(ok := false)
    else Progress(p.disk.(attempts := p.disk.attempts[k := a]), p.left - 1, true)
  }

  function WriteRun(p: Progress, run: Run): Progress
  {
    if !p.ok || p.left == 0 then p.(ok := false)
    else Progress(p.disk.(run := run), p.left - 1, true)
  }

  // ----- what a section does to one node -----

  datatype Edit =
    | Drop(i: NodeId, reason: Reason)
    | Ask(i: NodeId)
    | Assign(i: NodeId)
    | Finish(k: Key, conclusion: Conclusion, output: Output)
    | Lose(k: Key)
    | Hold(k: Key, why: Reason, questions: Option<Output>)
    | Confirm(k: Key)
    | Refuse(k: Key)
    | Conclude(k: Key)

  function NodeOf(e: Edit): NodeId
  {
    match e
    case Drop(i, _) => i
    case Ask(i) => i
    case Assign(i) => i
    case Finish(k, _, _) => k.node
    case Lose(k) => k.node
    case Hold(k, _, _) => k.node
    case Confirm(k) => k.node
    case Refuse(k) => k.node
    case Conclude(k) => k.node
  }

  predicate OnAttempt(e: Edit) { e.Finish? || e.Lose? || e.Hold? || e.Confirm? || e.Refuse? || e.Conclude? }

  predicate AlreadyCancelled(a: Attempt) { a.phase == Completed && a.conclusion == Cancelled }

  ghost predicate Applies(doc: Document, d: Disk, e: Edit)
  {
    && |d.nodes| == |doc.nodes| && NodeOf(e) < |d.nodes|
    && (OnAttempt(e) ==> e.k in d.attempts)
  }

  /** The node, attempt and run writes of one edit, in the order the engine makes them. */
  ghost function Perform(doc: Document, p: Progress, e: Edit): (q: Progress)
    requires Applies(doc, p.disk, e)
    ensures |q.disk.nodes| == |p.disk.nodes|
    ensures p.disk.attempts.Keys <= q.disk.attempts.Keys
  {
    var n, run := p.disk.nodes[NodeOf(e)], p.disk.run;
    match e
    case Drop(i, reason) => WriteNode(p, i, n.(phase := Skipped, reason := reason))
    case Ask(i) => WriteNode(p, i, n.(phase := Waiting, reason := ApprovalRequired))
    case Assign(i) =>
      var running := n.(phase := Running, reason := NoReason, conclusion := NoConclusion, attempt := n.attempt + 1);
      WriteRun(WriteNode(CreateAttempt(p, Key(i, n.attempt + 1), FRESH), i, running),
        run.(phase := RunRunning, reason := NoReason, conclusion := NoConclusion))
    case Finish(k, conclusion, output) =>
      var completed := n.(phase := Completed, conclusion := conclusion, reason := NoReason, result := Some(output));
      var attempt := p.disk.attempts[k].(phase := Completed, conclusion := conclusion, consumed := true);
      WriteRun(UpdateAttempt(WriteNode(p, k.node, completed), k, attempt),
        run.(phase := RunRunning, reason := NoReason, conclusion := NoConclusion))
    case Lose(k) =>
      var attempt := p.disk.attempts[k].(phase := Completed, conclusion := Indeterminate);
      WriteRun(WriteNode(UpdateAttempt(p, k, attempt), k.node, n.(phase := Completed, conclusion := Indeterminate, reason := NoReason)),
        run.(phase := RunRunning, reason := NoReason, conclusion := NoConclusion))
    case Hold(k, why, questions) =>
      var attempt := p.disk.attempts[k].(phase := Waiting, reason := why);
      var asked := if questions.Some? then attempt.(consumed := true) else attempt;
      var waiting := n.(phase := Waiting, reason := why, result := if questions.Some? then questions else n.result);
      WriteRun(UpdateAttempt(WriteNode(p, k.node, waiting), k, asked), Aggregate(run, doc, p.disk.nodes[k.node := waiting]).0)
    case Confirm(k) =>
      var attempt := p.disk.attempts[k].(phase := Completed, conclusion := Cancelled, reason := UserRequested);
      UpdateAttempt(WriteNode(p, k.node, n.(phase := Completed, conclusion := Cancelled, reason := UserRequested)), k, attempt)
    case Refuse(k) =>
      var attempt := p.disk.attempts[k].(phase := Waiting, conclusion := NoConclusion, reason := CancelFailed);
      UpdateAttempt(WriteNode(p, k.node, n.(phase := Waiting, conclusion := NoConclusion, reason := CancelFailed)), k, attempt)
    case Conclude(k) =>
      var a := p.disk.attempts[k];
      var q := if AlreadyCancelled(a) then p
               else UpdateAttempt(p, k, a.(phase := Completed, conclusion := Cancelled, reason := UserRequested));
      WriteNode(q, k.node, n.(phase := Completed, conclusion := Cancelled, reason := UserRequested))
  }

  ghost predicate AllApply(doc: Document, d: Disk, es: seq<Edit>)
  {
    |d.nodes| == |doc.nodes| && forall i :: 0 <= i < |es| ==> Applies(doc, d, es[i])
  }

  ghost function PerformAll(doc: Document, p: Progress, es: seq<Edit>): (q: Progress)
    requires AllApply(doc, p.disk, es)
    ensures |q.disk.nodes| == |p.disk.nodes|
    ensures p.disk.attempts.Keys <= q.disk.attempts.Keys
    decreases |es|
  {
    if es == [] then p
    else
      assert forall i :: 0 <= i < |es| - 1 ==> es[1..][i] == es[i + 1];
      PerformAll(doc, Perform(doc, p, es[0]), es[1..])
  }

  // ----- the machine -----

  /** A launch that the controller has handed to a launcher, until its outcome is dealt with. */
  datatype Flight =
    | Queued
    | Begun
    | Called(handle: bool, failed: bool)
    | Landed(handle: bool, failed: bool)

  datatype Observation =
    | NoDriver
    | StillActive
    | Gone
    | Delivered(succeeded: bool, output: Output)
    | Questions(asked: Output)
    | Stalled(why: Reason)

  datatype Verdict = AlreadySettled | Missing | Report(observation: Observation)

  datatype Stage =
    | Off
    | Idle
    | Failing
    | Observing(refs: seq<Key>, verdicts: map<Key, Verdict>, settled: nat)
    | Launching
    | Recovering(progress: Recovery)

  /** How far the cancellation that is taken up again after a restart has come. */
  datatype Recovery =
    | Unmarked
    | Looking(k: Key)
    | Asking(k: Key)
    | Ending(first: Option<Key>)
    | Refusing

  datatype Poll = Unasked | Holding | Answered(confirmed: bool)

  datatype Canceller = NoCancel | Polling(targets: seq<Key>, polls: map<Key, Poll>)

  /** What has happened: which attempts the backend was asked to start, which executions
      it reported gone, and how many retries and answers each node was given. An action
      counts once its node is written. */
  datatype Past = Past(started: multiset<Key>, gone: set<Key>, accepted: seq<nat>)

  /** The machine's state. `confirmed` are the attempts whose cancellation the backend
      confirmed, `spared` the targets that a canceller found concluded and left alone.
      `torn` holds while an action has stopped between its first node and the run's file,
      and nothing has taken up the run since; `abandoned` tells whether the last
      cancellation that completed the run found an active node that it did not settle. */
  datatype State = State(disk: Disk, stage: Stage, flights: map<Key, Flight>, stopping: bool, canceller: Canceller,
    past: Past, confirmed: set<Key>, spared: set<Key>, torn: bool, abandoned: bool)

  datatype System = System(doc: Document)

  datatype Action =
    | Decide(i: NodeId, approved: bool, why: string)
    | Retry(i: NodeId, acknowledged: bool)
    | Answer(i: NodeId, attempt: nat)

  datatype Step =
    | StartControl(rewrite: bool, writes: nat)
    | StopControl
    | FailControl(paused: bool, writes: nat)
    | BeginReconcile
    | Observe(k: Key, seen: Observation)
    | Settle(writes: nat)
    | EndReconcile
    | Schedule(limit: nat, writes: nat)
    | Begin(k: Key, writes: nat)
    | LoseDriver(k: Key)
    | CallStart(k: Key, handle: bool, failed: bool)
    | Land(k: Key, writes: nat)
    | Resolve(k: Key, writes: nat)
    | EndLaunch
    | MarkCancel(writes: nat)
    | PollTarget(k: Key, expired: bool)
    | GiveUp(k: Key)
    | CancelBackend(k: Key, confirmed: bool)
    | ApplyCancel(writes: nat)
    | StartRecovery(writes: nat)
    | RecoverMark(writes: nat)
    | RecoverLook(expired: bool)
    | RecoverGiveUp
    | RecoverAsk(confirmed: bool)
    | RecoverEnd(writes: nat)
    | Act(action: Action, writes: nat)
    | Crash

  /** Whether the controller may still change the run. */
  predicate Mutable(s: State)
  {
    && s.stage != Off && !s.stopping && !s.disk.run.cancelRequested
    && s.disk.run.phase != Paused && s.disk.run.phase != Cancelling && s.disk.run.phase != RunCompleted
  }

  function Fresh(s: State, writes: nat): Progress { Progress(s.disk, writes, true) }

  function Halt(s: State): State { s.(stage := Off, flights := map[], stopping := false) }

  function ActiveKeys(nodes: seq<Node>): seq<Key>
  {
    if nodes == [] then []
    else
      var i := |nodes| - 1;
      ActiveKeys(nodes[..i]) + if Active(nodes[i]) then [Key(i, nodes[i].attempt)] else []
  }

  predicate Joined(s: State) { forall k :: k in s.flights ==> s.flights[k].Landed? }

  /** A controller takes up the run. Recovery rewrites the run's file only if it was paused. */
  function DoStartControl(s: State, rewrite: bool, writes: nat): State
  {
    if s.stage != Off || s.canceller != NoCancel || s.disk.run.phase == RunCompleted || s.disk.run.cancelRequested then s
    else
      var p := if rewrite || s.disk.run.phase == Paused
               then WriteRun(Fresh(s, writes), s.disk.run.(phase := RunRunning, conclusion := NoConclusion, reason := NoReason))
               else Fresh(s, writes);
      if p.ok then s.(disk := p.disk, stage := Idle, flights := map[], stopping := false, torn := false, abandoned := false) else s
  }

  function DoStopControl(s: State): State
  {
    if s.stage != Off && !s.stage.Recovering? && Joined(s) then Halt(s) else s
  }

  /** Leaves the run waiting after an error, or paused after a lost heartbeat. */
  function DoFailControl(s: State, paused: bool, writes: nat): State
  {
    if s.stage == Off || s.stage.Recovering? || !Joined(s) then s
    else if !Mutable(s) then Halt(s)
    else
      var run := if paused then s.disk.run.(phase := Paused, conclusion := NoConclusion, reason := ControllerDetach)
                 else s.disk.run.(phase := RunWaiting, reason := CompletionMissing);
      Halt(s.(disk := WriteRun(Fresh(s, writes), run).disk))
  }

  function DoBeginReconcile(s: State): State
  {
    if s.stage != Idle then s
    else if s.disk.run.phase == RunCompleted || s.disk.run.cancelRequested then Halt(s)
    else
      var refs := ActiveKeys(s.disk.nodes);
      if refs == [] then s else s.(stage := Observing(refs, map[], 0))
  }

  function DoObserve(s: State, k: Key, seen: Observation): State
  {
    if !s.stage.Observing? || k !in s.stage.refs || k in s.stage.verdicts || k !in s.disk.attempts
       || (seen.Stalled? && seen.why !in {AgentWaitingInput, CompletionMissing, InvalidResult}) then s
    else
      var a := s.disk.attempts[k];
      var verdict :=
        if a.consumed && a.phase == Waiting && a.reason == AgentWaitingInput then AlreadySettled
        else if seen == NoDriver then Report(NoDriver)
        else if !a.handle then Missing
        else Report(seen);
      s.(stage := s.stage.(verdicts := s.stage.verdicts[k := verdict]),
         past := s.past.(gone := if verdict == Report(Gone) then s.past.gone + {k} else s.past.gone))
  }

  /** What one observation does to its attempt; an attempt without a handle is lost. */
  function EditFor(k: Key, verdict: Verdict): Option<Edit>
  {
    match verdict
    case AlreadySettled => None
    case Missing => Some(Lose(k))
    case Report(NoDriver) => Some(Hold(k, CompletionMissing, None))
    case Report(StillActive) => None
    case Report(Gone) => Some(Lose(k))
    case Report(Delivered(succeeded, output)) => Some(Finish(k, if succeeded then Succeeded else Failed, output))
    case Report(Questions(asked)) => Some(Hold(k, AgentWaitingInput, Some(asked)))
    case Report(Stalled(why)) => Some(Hold(k, why, None))
  }

  predicate AllObserved(stage: Stage)
    requires stage.Observing?
  {
    forall k :: k in stage.refs ==> k in stage.verdicts
  }

  ghost function DoSettle(sys: System, s: State, writes: nat): State
  {
    if !s.stage.Observing? || s.stage.settled >= |s.stage.refs| || !AllObserved(s.stage) then s
    else
      var k := s.stage.refs[s.stage.settled];
      var edit := EditFor(k, s.stage.verdicts[k]);
      var next := s.stage.(settled := s.stage.settled + 1);
      if edit.None? then s.(stage := next)
      else if !Mutable(s) then Halt(s)
      else if !Applies(sys.doc, s.disk, edit.value) then s
      else
        var p := Perform(sys.doc, Fresh(s, writes), edit.value);
        s.(disk := p.disk, stage := if p.ok then next else Failing)
  }

  function DoEndReconcile(s: State): State
  {
    if s.stage.Observing? && s.stage.settled == |s.stage.refs| then s.(stage := Idle) else s
  }

  function Drops(ids: seq<NodeId>, reason: Reason): (es: seq<Edit>)
    ensures |es| == |ids| && forall j :: 0 <= j < |ids| ==> es[j] == Drop(ids[j], reason)
  {
    seq(|ids|, j requires 0 <= j < |ids| => Drop(ids[j], reason))
  }

  function Asks(ids: seq<NodeId>): (es: seq<Edit>)
    ensures |es| == |ids| && forall j :: 0 <= j < |ids| ==> es[j] == Ask(ids[j])
  {
    seq(|ids|, j requires 0 <= j < |ids| => Ask(ids[j]))
  }

  function Assigns(ids: seq<NodeId>): (es: seq<Edit>)
    ensures |es| == |ids| && forall j :: 0 <= j < |ids| ==> es[j] == Assign(ids[j])
  {
    seq(|ids|, j requires 0 <= j < |ids| => Assign(ids[j]))
  }

  function EditsOf(d: Decision): seq<Edit>
  {
    Drops(d.skipUpstream, UpstreamFailed) + Drops(d.skipConditions, ConditionFalse)
      + Drops(d.skipFailurePolicy, FailurePolicy) + Asks(d.readyApprovals) + Assigns(d.readyAgents)
  }

  function NewFlights(nodes: seq<Node>, ids: seq<NodeId>): map<Key, Flight>
  {
    map i | i in ids && i < |nodes| :: Key(i, nodes[i].attempt) := Queued
  }

  /** One scheduling batch under the backend's limit as it is read for the batch: skips,
      approvals and assignments, written one by one. Without assignments the run's own
      state is brought up to date. */
  ghost function DoSchedule(sys: System, s: State, limit: nat, writes: nat): State
  {
    if s.stage != Idle then s
    else if !Mutable(s) then Halt(s)
    else if !Fits(sys.doc, s.disk.nodes) then s
    else
      var plan := Plan(sys.doc, s.disk.run.conclusion, s.disk.nodes, limit);
      if plan.Err? then s.(stage := Failing)
      else if !AllApply(sys.doc, s.disk, EditsOf(plan.value)) then s
      else
        var p := PerformAll(sys.doc, Fresh(s, writes), EditsOf(plan.value));
        var agents := plan.value.readyAgents;
        if !p.ok then s.(disk := p.disk, stage := Failing)
        else if agents != [] then s.(disk := p.disk, stage := Launching, flights := NewFlights(p.disk.nodes, agents))
        else
          var run := Aggregate(p.disk.run, sys.doc, p.disk.nodes).0;
          if run == p.disk.run then s.(disk := p.disk)
          else
            var q := WriteRun(p, run);
            s.(disk := q.disk, stage := if q.ok then Idle else Failing)
  }

  /** The launcher's last look before dispatching, under the mutex. */
  function DoBegin(s: State, k: Key, writes: nat): State
  {
    if k !in s.flights || s.flights[k] != Queued || k !in s.disk.attempts then s
    else if s.stopping || s.disk.run.cancelRequested || s.disk.run.phase == Cancelling || s.disk.run.phase == RunCompleted then
      s.(flights := s.flights[k := Landed(false, true)])
    else
      var p := UpdateAttempt(Fresh(s, writes), k, s.disk.attempts[k].(launch := Dispatching));
      s.(disk := p.disk, flights := s.flights[k := if p.ok then Begun else Landed(false, true)])
  }

  function DoLoseDriver(s: State, k: Key): State
  {
    if k in s.flights && s.flights[k] == Begun then s.(flights := s.flights[k := Landed(false, true)]) else s
  }

  function DoCallStart(s: State, k: Key, handle: bool, failed: bool): State
  {
    if k in s.flights && s.flights[k] == Begun then
      s.(flights := s.flights[k := Called(handle, failed)], past := s.past.(started := s.past.started + multiset{k}))
    else s
  }

  function DoLand(s: State, k: Key, writes: nat): State
  {
    if k !in s.flights || !s.flights[k].Called? || k !in s.disk.attempts then s
    else
      var flight, a := s.flights[k], s.disk.attempts[k];
      if !flight.handle && a.handle then s.(flights := s.flights[k := Landed(false, flight.failed)])
      else
        var landed := if flight.handle then a.(launch := HandlePersisted, handle := true) else a.(launch := FinishedWithoutHandle);
        var p := UpdateAttempt(Fresh(s, writes), k, landed);
        s.(disk := p.disk, flights := s.flights[k := Landed(flight.handle, flight.failed || !p.ok)])
  }

  /** After all launchers have joined, each outcome is recorded. */
  ghost function DoResolve(sys: System, s: State, k: Key, writes: nat): State
  {
    if s.stage != Launching || k !in s.flights || !Joined(s) then s
    else
      var flight, rest := s.flights[k], s.flights - {k};
      if flight.handle && !flight.failed then s.(flights := rest)
      else if !Mutable(s) then Halt(s)
      else
        var edit := if flight.handle then Hold(k, CompletionMissing, None) else Lose(k);
        if !Applies(sys.doc, s.disk, edit) then s
        else
          var p := Perform(sys.doc, Fresh(s, writes), edit);
          if p.ok then s.(disk := p.disk, flights := rest) else s.(disk := p.disk, flights := map[], stage := Failing)
  }

  function DoEndLaunch(s: State): State { if s.stage == Launching && s.flights == map[] then s.(stage := Idle) else s }

  /** The current attempts that a cancellation must settle. */
  function Targets(d: Disk, keys: seq<Key>): seq<Key>
  {
    if keys == [] then []
    else
      var k := keys[|keys| - 1];
      Targets(d, keys[..|keys| - 1])
        + if k in d.attempts && AlreadyCancelled(d.attempts[k]) then [] else [k]
  }

  /** Puts the cancellation on disk, unless it is there. */
  function MarkRun(p: Progress): Progress
  {
    if p.disk.run.cancelRequested && p.disk.run.phase == Cancelling then p
    else WriteRun(p, p.disk.run.(cancelRequested := true, phase := Cancelling, conclusion := NoConclusion, reason := NoReason))
  }

  /** A cancellation is taken up by a running controller's monitor, or by a caller that
      holds the lease when no controller runs. The monitor stops its controller even when
      the cancellation could not be written. */
  function DoMarkCancel(s: State, writes: nat): State
  {
    if s.canceller != NoCancel || (s.stage != Off && s.stopping) || s.disk.run.phase == RunCompleted then s
    else
      var p := MarkRun(Fresh(s, writes));
      if !p.ok then s.(stopping := s.stage != Off)
      else
        var targets := Targets(p.disk, ActiveKeys(p.disk.nodes));
        s.(disk := p.disk, canceller := Polling(targets, map k | k in targets :: Unasked), torn := false)
  }

  /** One unlocked look at a target's attempt. */
  function DoPollTarget(s: State, k: Key, expired: bool): State
  {
    if !s.canceller.Polling? || k !in s.canceller.polls || s.canceller.polls[k] != Unasked || k !in s.disk.attempts then s
    else
      var a := s.disk.attempts[k];
      var poll :=
        if a.handle then if a.phase == Completed then Answered(true) else Holding
        else match a.launch {
          case Prepared => Answered(true)
          case Dispatching => if expired then Answered(false) else Unasked
          case HandlePersisted => Answered(false)
          case FinishedWithoutHandle => Answered(false)
        };
      s.(canceller := s.canceller.(polls := s.canceller.polls[k := poll]),
         spared := if a.handle && a.phase == Completed && !AlreadyCancelled(a) then s.spared + {k} else s.spared)
  }

  function DoGiveUp(s: State, k: Key): State
  {
    if !s.canceller.Polling? || k !in s.canceller.polls || s.canceller.polls[k] != Unasked then s
    else s.(canceller := s.canceller.(polls := s.canceller.polls[k := Answered(false)]))
  }

  function DoCancelBackend(s: State, k: Key, confirmed: bool): State
  {
    if !s.canceller.Polling? || k !in s.canceller.polls || s.canceller.polls[k] != Holding then s
    else
      s.(canceller := s.canceller.(polls := s.canceller.polls[k := Answered(confirmed)]),
         confirmed := if confirmed then s.confirmed + {k} else s.confirmed)
  }

  predicate AllAnswered(c: Canceller)
    requires c.Polling?
  {
    forall k :: k in c.targets ==> k in c.polls && c.polls[k].Answered?
  }

  predicate AllConfirmed(c: Canceller)
    requires c.Polling?
  {
    forall k :: k in c.targets ==> k in c.polls && c.polls[k] == Answered(true)
  }

  function CancelEdits(c: Canceller): (es: seq<Edit>)
    requires c.Polling?
    ensures |es| == |c.targets|
    ensures forall j :: 0 <= j < |es| ==>
              es[j] == if c.targets[j] in c.polls && c.polls[c.targets[j]] == Answered(true) then Confirm(c.targets[j]) else Refuse(c.targets[j])
  {
    seq(|c.targets|, j requires 0 <= j < |c.targets| =>
      if c.targets[j] in c.polls && c.polls[c.targets[j]] == Answered(true) then Confirm(c.targets[j]) else Refuse(c.targets[j]))
  }

  predicate Leftover(n: Node) { Unstarted(n) || WaitingApproval(n) }

  function Leftovers(nodes: seq<Node>): seq<NodeId>
  {
    if nodes == [] then []
    else
      var i := |nodes| - 1;
      Leftovers(nodes[..i]) + if Leftover(nodes[i]) then [i] else []
  }

  /** What the canceller writes once every target has answered. */
  ghost function CancelWrites(sys: System, s: State, writes: nat): Progress
    requires s.canceller.Polling? && AllApply(sys.doc, s.disk, CancelEdits(s.canceller))
  {
    var p := PerformAll(sys.doc, Fresh(s, writes), CancelEdits(s.canceller));
    if !AllConfirmed(s.canceller) then
      WriteRun(p, p.disk.run.(cancelRequested := true, phase := RunWaiting, conclusion := NoConclusion, reason := CancelFailed))
    else
      var drops := Drops(Leftovers(p.disk.nodes), WorkflowCancelled);
      if !AllApply(sys.doc, p.disk, drops) then p
      else
        var q := PerformAll(sys.doc, p, drops);
        WriteRun(q, q.disk.run.(cancelRequested := true, phase := RunCompleted, conclusion := Cancelled, reason := UserRequested))
  }

  /** An active node whose attempt is none of the given ones. */
  ghost predicate LeftAtWork(nodes: seq<Node>, keys: seq<Key>)
  {
    exists i :: 0 <= i < |nodes| && Active(nodes[i]) && Key(i, nodes[i].attempt) !in keys
  }

  /** Records the answers; with every target confirmed the run completes as cancelled. */
  ghost function DoApplyCancel(sys: System, s: State, writes: nat): State
  {
    if !s.canceller.Polling? || !AllAnswered(s.canceller) || !AllApply(sys.doc, s.disk, CancelEdits(s.canceller)) then s
    else if s.disk.run.phase == RunCompleted then s.(canceller := NoCancel, stopping := s.stage != Off)
    else
      var p := CancelWrites(sys, s, writes);
      s.(disk := p.disk, canceller := NoCancel, stopping := s.stage != Off,
         abandoned := if p.disk.run.phase == RunCompleted then LeftAtWork(s.disk.nodes, s.canceller.targets) else s.abandoned)
  }

  // ----- a cancellation taken up again after a restart -----

  /** The node is at work on an attempt. */
  predicate AtWork(n: Node) { n.attempt > 0 && (n.phase == Running || n.phase == Waiting) }

  /** The first node at work, from a node on. */
  function FirstAtWork(nodes: seq<Node>, i: nat): Option<NodeId>
    requires i <= |nodes|
    decreases |nodes| - i
  {
    if i == |nodes| then None else if AtWork(nodes[i]) then Some(i) else FirstAtWork(nodes, i + 1)
  }

  /** Recovery starts a controller that takes up the cancellation and does not run the
      workflow; its monitor is the canceller above, which takes up the same request. */
  function DoStartRecovery(s: State, writes: nat): State
  {
    if s.stage != Off || s.canceller != NoCancel || s.disk.run.phase == RunCompleted || !s.disk.run.cancelRequested
       || (s.disk.run.phase == RunWaiting && s.disk.run.reason == ApprovalRequired) then s
    else
      var p := if s.disk.run.phase == Paused
               then WriteRun(Fresh(s, writes), s.disk.run.(phase := RunRunning, conclusion := NoConclusion, reason := NoReason))
               else Fresh(s, writes);
      if p.ok then s.(disk := p.disk, stage := Recovering(Unmarked), flights := map[], stopping := false, torn := false) else s
  }

  function Picked(nodes: seq<Node>): Recovery
  {
    var first := FirstAtWork(nodes, 0);
    if first.None? || first.value >= |nodes| then Ending(None) else Looking(Key(first.value, nodes[first.value].attempt))
  }

  /** Marks the run again and picks the first node at work. */
  function DoRecoverMark(s: State, writes: nat): State
  {
    if s.stage != Recovering(Unmarked) then s
    else if s.disk.run.phase == RunCompleted then s.(stage := Recovering(Ending(None)))
    else
      var p := MarkRun(Fresh(s, writes));
      if p.ok then s.(disk := p.disk, stage := Recovering(Picked(p.disk.nodes))) else Halt(s)
  }

  /** One unlocked look at that node's attempt. */
  function DoRecoverLook(s: State, expired: bool): State
  {
    if !(s.stage.Recovering? && s.stage.progress.Looking?) || s.stage.progress.k !in s.disk.attempts then s
    else
      var k := s.stage.progress.k;
      var a := s.disk.attempts[k];
      s.(stage := Recovering(
        if a.handle then if AlreadyCancelled(a) then Ending(Some(k)) else Asking(k)
        else match a.launch {
          case Prepared => Ending(Some(k))
          case Dispatching => if expired then Refusing else Looking(k)
          case HandlePersisted => Refusing
          case FinishedWithoutHandle => Refusing
        }))
  }

  /** The driver is gone, or the controller was stopped meanwhile. */
  function DoRecoverGiveUp(s: State): State
  {
    if s.stage.Recovering? && (s.stage.progress.Looking? || s.stage.progress.Asking?) then s.(stage := Recovering(Refusing)) else s
  }

  function DoRecoverAsk(s: State, confirmed: bool): State
  {
    if !(s.stage.Recovering? && s.stage.progress.Asking?) then s
    else if confirmed then
      s.(stage := Recovering(Ending(Some(s.stage.progress.k))), confirmed := s.confirmed + {s.stage.progress.k})
    else s.(stage := Recovering(Refusing))
  }

  /** What recovery writes at its end: the one attempt and its node, the nodes that have not
      begun, and the run, which it completes. */
  ghost function RecoveryWrites(sys: System, s: State, first: Option<Key>, writes: nat): Progress
    requires |s.disk.nodes| == |sys.doc.nodes| && (first.Some? ==> Applies(sys.doc, s.disk, Conclude(first.value)))
  {
    var p := if first.Some? then Perform(sys.doc, Fresh(s, writes), Conclude(first.value)) else Fresh(s, writes);
    var drops := Drops(Leftovers(p.disk.nodes), WorkflowCancelled);
    if !AllApply(sys.doc, p.disk, drops) then p
    else
      var q := PerformAll(sys.doc, p, drops);
      WriteRun(q, q.disk.run.(cancelRequested := true, phase := RunCompleted, conclusion := Cancelled, reason := UserRequested))
  }

  function KeysOf(k: Option<Key>): seq<Key> { if k.Some? then [k.value] else [] }

  /** Completes the run as cancelled, or records that the cancellation failed, whatever has
      become of the run. */
  ghost function DoRecoverEnd(sys: System, s: State, writes: nat): State
  {
    if !s.stage.Recovering? then s
    else
      match s.stage.progress
      case Refusing =>
        var run := s.disk.run.(cancelRequested := true, phase := RunWaiting, conclusion := NoConclusion, reason := CancelFailed);
        Halt(s).(disk := WriteRun(Fresh(s, writes), run).disk)
      case Ending(first) =>
        if s.disk.run.phase == RunCompleted then Halt(s)
        else if |s.disk.nodes| != |sys.doc.nodes| || (first.Some? && !Applies(sys.doc, s.disk, Conclude(first.value))) then s
        else
          var p := RecoveryWrites(sys, s, first, writes);
          Halt(s).(disk := p.disk, abandoned := if p.disk.run.phase == RunCompleted then LeftAtWork(s.disk.nodes, KeysOf(first)) else s.abandoned)
      case _ => s
  }

  // ----- a person's action -----

  const DECISION := "result.decision"
  const REASON := "result.reason"

  /** A text of a node's result; one that is not there is empty. */
  function TextOf(n: Node, field: Field): string
  {
    if n.result.Some? && field in n.result.value.fields then n.result.value.fields[field] else ""
  }

  function Word(approved: bool): string { if approved then "approved" else "rejected" }

  /** Whether a decision repeats the one that is recorded on its node. */
  predicate Repeats(nodes: seq<Node>, action: Action)
  {
    && action.Decide? && action.i < |nodes|
    && TextOf(nodes[action.i], DECISION) == Word(action.approved) && TextOf(nodes[action.i], REASON) == action.why
  }

  /** Whether a person's action fits the nodes as they are. */
  predicate Takes(nodes: seq<Node>, action: Action)
  {
    action.i < |nodes| &&
    var n := nodes[action.i];
    match action
    case Decide(_, _, _) => TextOf(n, DECISION) == "" && WaitingApproval(n) && n.reason == ApprovalRequired
    case Retry(_, acknowledged) =>
      && n.attempt >= 1
      && ((n.phase == Waiting && n.reason in {AgentWaitingInput, CompletionMissing, InvalidResult})
          || (n.phase == Completed && n.conclusion in {Failed, Indeterminate}))
      && (n.conclusion == Indeterminate ==> acknowledged)
    case Answer(_, attempt) =>
      n.kind == Agent && n.phase == Waiting && n.reason == AgentWaitingInput && n.result.Some? && n.result.value.questions && attempt == n.attempt
  }

  /** An action is taken while nothing else holds the run. */
  predicate Allowed(s: State, action: Action)
  {
    s.stage == Off && s.canceller == NoCancel && action.i < |s.past.accepted| && Takes(s.disk.nodes, action)
  }

  /** A repeated decision is taken too, unless the run is completed. */
  predicate AllowedAgain(s: State, action: Action)
  {
    s.stage == Off && s.canceller == NoCancel && Repeats(s.disk.nodes, action) && s.disk.run.phase != RunCompleted
  }

  function Reset(n: Node): Node { n.(phase := Pending, reason := NoReason, conclusion := NoConclusion, result := None) }

  /** The skipped nodes below a retried or answered node start over. */
  ghost function ResetBelow(doc: Document, nodes: seq<Node>, i: NodeId): (r: seq<Node>)
    requires Fits(doc, nodes)
    ensures |r| == |nodes|
  {
    seq(|nodes|, j requires 0 <= j < |nodes| => if DependsOn(doc, j, i) && nodes[j].phase == Skipped then Reset(nodes[j]) else nodes[j])
  }

  function Decided(approved: bool, why: string): Output
  {
    Output(map[DECISION := Word(approved), REASON := why], false)
  }

  /** The target of an action once it is taken. */
  function Target(n: Node, action: Action): Node
  {
    match action
    case Decide(_, approved, why) =>
      n.(phase := Completed, result := Some(Decided(approved, why)), reason := NoReason, conclusion := if approved then Succeeded else Rejected)
    case _ => n.(phase := Ready, conclusion := NoConclusion, reason := NoReason, result := None)
  }

  /** The nodes once an action is taken. */
  ghost function Acted(doc: Document, nodes: seq<Node>, action: Action): (r: seq<Node>)
    requires Fits(doc, nodes) && Takes(nodes, action)
    ensures |r| == |nodes|
  {
    var i := action.i;
    if action.Decide? then nodes[i := Target(nodes[i], action)] else ResetBelow(doc, nodes, i)[i := Target(nodes[i], action)]
  }

  /** Resets the skipped nodes before n that lie below a node, one write each. */
  ghost function ResetWrites(doc: Document, p: Progress, i: NodeId, n: nat): (q: Progress)
    requires |p.disk.nodes| == |doc.nodes| && Ordered(doc) && n <= |p.disk.nodes|
    ensures |q.disk.nodes| == |p.disk.nodes|
  {
    if n == 0 then p
    else
      var q := ResetWrites(doc, p, i, n - 1);
      if DependsOn(doc, n - 1, i) && q.disk.nodes[n - 1].phase == Skipped then WriteNode(q, n - 1, Reset(q.disk.nodes[n - 1])) else q
  }

  /** The node writes of an action: its target, then the nodes it resets. */
  ghost function ActWrites(doc: Document, p: Progress, action: Action): Progress
    requires Fits(doc, p.disk.nodes) && Takes(p.disk.nodes, action)
  {
    var q := WriteNode(p, action.i, Target(p.disk.nodes[action.i], action));
    if action.Decide? then q else ResetWrites(doc, q, action.i, |p.disk.nodes|)
  }

  function Reopened(run: Run): Run
  {
    run.(phase := RunRunning, conclusion := NoConclusion, reason := NoReason, cancelRequested := false)
  }

  /** An action writes its nodes and then the run, and can be cut short anywhere; a repeated
      decision writes the run only. */
  ghost function DoAct(sys: System, s: State, action: Action, writes: nat): State
  {
    if AllowedAgain(s, action) then s.(disk := WriteRun(Fresh(s, writes), Reopened(s.disk.run)).disk)
    else if !Allowed(s, action) || !Fits(sys.doc, s.disk.nodes) then s
    else
      var i := action.i;
      var p := WriteRun(ActWrites(sys.doc, Fresh(s, writes), action), Reopened(s.disk.run));
      s.(disk := p.disk, torn := !p.ok && (s.torn || writes > 0),
         past := if action.Decide? || writes == 0 then s.past else s.past.(accepted := s.past.accepted[i := s.past.accepted[i] + 1]))
  }

  function DoCrash(s: State): State { Halt(s).(canceller := NoCancel) }

  ghost function Apply(sys: System, s: State, step: Step): State
  {
    match step
    case StartControl(rewrite, writes) => DoStartControl(s, rewrite, writes)
    case StopControl => DoStopControl(s)
    case FailControl(paused, writes) => DoFailControl(s, paused, writes)
    case BeginReconcile => DoBeginReconcile(s)
    case Observe(k, seen) => DoObserve(s, k, seen)
    case Settle(writes) => DoSettle(sys, s, writes)
    case EndReconcile => DoEndReconcile(s)
    case Schedule(limit, writes) => DoSchedule(sys, s, limit, writes)
    case Begin(k, writes) => DoBegin(s, k, writes)
    case LoseDriver(k) => DoLoseDriver(s, k)
    case CallStart(k, handle, failed) => DoCallStart(s, k, handle, failed)
    case Land(k, writes) => DoLand(s, k, writes)
    case Resolve(k, writes) => DoResolve(sys, s, k, writes)
    case EndLaunch => DoEndLaunch(s)
    case MarkCancel(writes) => DoMarkCancel(s, writes)
    case PollTarget(k, expired) => DoPollTarget(s, k, expired)
    case GiveUp(k) => DoGiveUp(s, k)
    case CancelBackend(k, confirmed) => DoCancelBackend(s, k, confirmed)
    case ApplyCancel(writes) => DoApplyCancel(sys, s, writes)
    case StartRecovery(writes) => DoStartRecovery(s, writes)
    case RecoverMark(writes) => DoRecoverMark(s, writes)
    case RecoverLook(expired) => DoRecoverLook(s, expired)
    case RecoverGiveUp => DoRecoverGiveUp(s)
    case RecoverAsk(confirmed) => DoRecoverAsk(s, confirmed)
    case RecoverEnd(writes) => DoRecoverEnd(sys, s, writes)
    case Act(action, writes) => DoAct(sys, s, action, writes)
    case Crash => DoCrash(s)
  }

  ghost function Reached(sys: System, s: State, steps: seq<Step>): State
  {
    if steps == [] then s else Apply(sys, Reached(sys, s, steps[..|steps| - 1]), steps[|steps| - 1])
  }

  function NewNode(definition: Definition): Node { Node(definition.kind, Pending, NoConclusion, NoReason, None, 0) }

  function Initial(sys: System): State
  {
    var n := |sys.doc.nodes|;
    State(Disk(Run(RunRunning, NoConclusion, NoReason, false), seq(n, i requires 0 <= i < n => NewNode(sys.doc.nodes[i])), map[]),
      Off, map[], false, NoCancel, Past(multiset{}, {}, seq(n, i => 0)), {}, {}, false, false)
  }
}
