/** The scheduler: what may run next, and what a run's state adds up to. */
module Scheduler {
  import opened Workflow

  const SAFETY_CEILING := 8

  datatype NodePhase = Pending | Ready | Running | Waiting | Completed | Skipped

  datatype Conclusion = NoConclusion | Succeeded | Failed | Cancelled | Rejected | Indeterminate

  datatype Reason = NoReason | ApprovalRequired | AgentWaitingInput | CompletionMissing | InvalidResult | CancelFailed
    | ConditionFalse | UpstreamFailed | FailurePolicy | WorkflowCancelled | ControllerDetach | UserRequested

  datatype Node = Node(kind: Kind, phase: NodePhase, conclusion: Conclusion, reason: Reason,
    result: Option<Output>, attempt: nat)

  datatype Decision = Decision(
    readyAgents: seq<NodeId>, readyApprovals: seq<NodeId>,
    skipUpstream: seq<NodeId>, skipConditions: seq<NodeId>, skipFailurePolicy: seq<NodeId>,
    limit: nat, active: nat, available: nat, stop: bool, complete: bool)

  datatype PlanError = BadWorkflowLimit | BadBackendLimit | BadCondition(node: NodeId)

  datatype Outcome<+T> = Ok(value: T) | Err(error: PlanError)

  predicate Done(n: Node) { n.phase == Completed || n.phase == Skipped }

  predicate Unstarted(n: Node) { n.phase == Pending || n.phase == Ready }

  /** An agent node that holds a slot. */
  predicate Active(n: Node) { n.kind == Agent && (n.phase == Running || n.phase == Waiting) && n.attempt > 0 }

  predicate FailedConclusion(c: Conclusion) { c == Failed || c == Indeterminate || c == Cancelled }

  predicate FailedNode(n: Node) { n.phase == Completed && FailedConclusion(n.conclusion) }

  /** A dependency whose failure reaches the nodes below it. */
  predicate FailsDependents(n: Node) { FailedConclusion(n.conclusion) || n.reason == UpstreamFailed }

  function EffectiveConcurrency(workflowLimit: int, backendLimit: int): Outcome<nat>
  {
    if workflowLimit < 1 then Err(BadWorkflowLimit)
    else if backendLimit < 0 then Err(BadBackendLimit)
    else
      var limit := if workflowLimit < SAFETY_CEILING then workflowLimit else SAFETY_CEILING;
      Ok(if 0 < backendLimit < limit then backendLimit else limit)
  }

  /** The limit is the largest number within the ceiling, the workflow's limit and a
      declared backend limit. */
  lemma LimitIsLargest(workflowLimit: int, backendLimit: int, n: nat)
    requires workflowLimit >= 1 && backendLimit >= 0
    ensures EffectiveConcurrency(workflowLimit, backendLimit).Ok? && EffectiveConcurrency(workflowLimit, backendLimit).value > 0
    ensures n <= EffectiveConcurrency(workflowLimit, backendLimit).value <==>
              n <= SAFETY_CEILING && n <= workflowLimit && (backendLimit > 0 ==> n <= backendLimit)
  {
  }

  // ----- what the plan is -----

  function Results(nodes: seq<Node>): (r: map<NodeId, Output>)
    ensures forall i :: i in r <==> 0 <= i < |nodes| && nodes[i].result.Some?
    ensures forall i :: i in r ==> r[i] == nodes[i].result.value
  {
    map i | 0 <= i < |nodes| && nodes[i].result.Some? :: nodes[i].result.value
  }

  function CountActive(nodes: seq<Node>): (n: nat)
    ensures n <= |nodes|
  {
    if nodes == [] then 0 else CountActive(nodes[..|nodes| - 1]) + if Active(nodes[|nodes| - 1]) then 1 else 0
  }

  ghost predicate Stops(conclusion: Conclusion, nodes: seq<Node>)
  {
    FailedConclusion(conclusion) || exists i :: 0 <= i < |nodes| && FailedNode(nodes[i])
  }

  ghost predicate Stable(doc: Document, nodes: seq<Node>, i: NodeId)
    requires Fits(doc, nodes) && i < |nodes|
  {
    forall d :: d in doc.nodes[i].dependsOn ==> Done(nodes[d])
  }

  ghost predicate UpstreamHasFailed(doc: Document, nodes: seq<Node>, i: NodeId)
    requires Fits(doc, nodes) && i < |nodes|
  {
    exists d :: d in doc.nodes[i].dependsOn && FailsDependents(nodes[d])
  }

  ghost predicate Fits(doc: Document, nodes: seq<Node>)
  {
    Ordered(doc) && |nodes| == |doc.nodes|
  }

  /** What the scheduler decides about one node. */
  datatype Fate = Nothing | Blocked | SkipUpstream | SkipCondition | SkipFailurePolicy | Approve | Launch | Unclear

  ghost function FateOf(doc: Document, nodes: seq<Node>, stop: bool, i: NodeId): Fate
    requires Fits(doc, nodes) && i < |nodes|
  {
    var definition, failed, results := doc.nodes[i], UpstreamHasFailed(doc, nodes, i), Results(nodes);
    if stop && nodes[i].kind == Approval && nodes[i].phase == Waiting then SkipFailurePolicy
    else if !Unstarted(nodes[i]) then Nothing
    else if !Stable(doc, nodes, i) then Blocked
    else if definition.guard.Some? && Evaluate(definition.guard.value, results) == Broken then
      if failed && ResultMissing(definition.guard.value, results) then SkipUpstream else Unclear
    else if definition.guard.Some? && Evaluate(definition.guard.value, results) == Differs then SkipCondition
    else if definition.guard.None? && failed then SkipUpstream
    else if stop && !failed then SkipFailurePolicy
    else if definition.kind == Approval then Approve
    else Launch
  }

  /** The fates of the first n nodes. */
  ghost function Fates(doc: Document, nodes: seq<Node>, stop: bool, n: nat): (fates: seq<Fate>)
    requires Fits(doc, nodes) && n <= |nodes|
    ensures |fates| == n
  {
    if n == 0 then [] else Fates(doc, nodes, stop, n - 1) + [FateOf(doc, nodes, stop, n - 1)]
  }

  lemma {:induction false} FateAt(doc: Document, nodes: seq<Node>, stop: bool, n: nat, i: NodeId)
    requires Fits(doc, nodes) && i < n <= |nodes|
    ensures Fates(doc, nodes, stop, n)[i] == FateOf(doc, nodes, stop, i)
  {
    if i < n - 1 { FateAt(doc, nodes, stop, n - 1, i); }
  }

  /** The nodes before n with a given fate, in topological order. */
  ghost function Fated(fates: seq<Fate>, fate: Fate, n: nat): seq<NodeId>
    requires n <= |fates|
  {
    if n == 0 then [] else Fated(fates, fate, n - 1) + if fates[n - 1] == fate then [n - 1] else []
  }

  function First<T>(s: seq<T>, n: nat): seq<T> { if |s| <= n then s else s[..n] }

  function Free(limit: nat, active: nat): nat { if active <= limit then limit - active else 0 }

  ghost function DecisionUpTo(fates: seq<Fate>, limit: nat, active: nat, stop: bool, n: nat): Decision
    requires n <= |fates|
  {
    var agents := First(Fated(fates, Launch, n), Free(limit, active));
    Decision(agents, Fated(fates, Approve, n),
      Fated(fates, SkipUpstream, n), Fated(fates, SkipCondition, n), Fated(fates, SkipFailurePolicy, n),
      limit, active, Free(limit, active) - |agents|, stop, false)
  }

  ghost predicate AllDone(nodes: seq<Node>) { forall i :: 0 <= i < |nodes| ==> Done(nodes[i]) }

  /** The scheduling decision; it fails at the first node whose condition cannot be decided. */
  ghost function Plan(doc: Document, conclusion: Conclusion, nodes: seq<Node>, backendLimit: int): Outcome<Decision>
    requires Fits(doc, nodes)
  {
    var limit := EffectiveConcurrency(doc.maxConcurrency, backendLimit);
    var stop := Stops(conclusion, nodes);
    var fates := Fates(doc, nodes, stop, |nodes|);
    if limit.Err? then Err(limit.error)
    else if Fated(fates, Unclear, |nodes|) != [] then Err(BadCondition(Fated(fates, Unclear, |nodes|)[0]))
    else Ok(DecisionUpTo(fates, limit.value, CountActive(nodes), stop, |nodes|).(complete := AllDone(nodes)))
  }

  // ----- the plan as the scheduler computes it -----

  method CheckUpstream(doc: Document, nodes: seq<Node>, i: NodeId) returns (stable: bool, failed: bool)
    requires Fits(doc, nodes) && i < |nodes|
    ensures stable == Stable(doc, nodes, i)
    ensures stable ==> failed == UpstreamHasFailed(doc, nodes, i)
  {
    stable, failed := true, false;
    var deps := doc.nodes[i].dependsOn;
    var k := 0;
    while k < |deps|
      invariant 0 <= k <= |deps| && stable
      invariant forall d :: d in deps[..k] ==> d in deps && Done(nodes[d])
      invariant failed <==> exists d :: d in deps[..k] && d in deps && FailsDependents(nodes[d])
    {
      assert deps[k] in deps && deps[..k + 1] == deps[..k] + [deps[k]];
      if !Done(nodes[deps[k]]) {
        stable := false;
        return;
      }
      if FailsDependents(nodes[deps[k]]) { failed := true; }
      k := k + 1;
    }
    assert deps[..k] == deps;
  }

  method Survey(conclusion: Conclusion, nodes: seq<Node>) returns (active: nat, failure: bool)
    ensures active == CountActive(nodes)
    ensures failure == Stops(conclusion, nodes)
  {
    active, failure := 0, FailedConclusion(conclusion);
    var i := 0;
    while i < |nodes|
      invariant 0 <= i <= |nodes|
      invariant active == CountActive(nodes[..i])
      invariant failure <==> FailedConclusion(conclusion) || exists j :: 0 <= j < i && FailedNode(nodes[j])
    {
      assert nodes[..i + 1][..i] == nodes[..i];
      if Active(nodes[i]) { active := active + 1; }
      if FailedNode(nodes[i]) { failure := true; }
      i := i + 1;
    }
    assert nodes[..i] == nodes;
  }

  method Decide(doc: Document, nodes: seq<Node>, results: map<NodeId, Output>, stop: bool, i: NodeId) returns (fate: Fate)
    requires Fits(doc, nodes) && i < |nodes| && results == Results(nodes)
    ensures fate == Fates(doc, nodes, stop, |nodes|)[i]
  {
    FateAt(doc, nodes, stop, |nodes|, i);
    if stop && nodes[i].kind == Approval && nodes[i].phase == Waiting { return SkipFailurePolicy; }
    if !Unstarted(nodes[i]) { return Nothing; }
    var definition := doc.nodes[i];
    var stable, upstreamFailed := CheckUpstream(doc, nodes, i);
    if !stable { return Blocked; }
    var eligibleFailureBranch := false;
    if definition.guard.Some? {
      var value := Evaluate(definition.guard.value, results);
      if value == Broken {
        if upstreamFailed && ResultMissing(definition.guard.value, results) { return SkipUpstream; }
        return Unclear;
      }
      if value == Differs { return SkipCondition; }
      eligibleFailureBranch := upstreamFailed;
    } else if upstreamFailed {
      return SkipUpstream;
    }
    if stop && !eligibleFailureBranch { return SkipFailurePolicy; }
    if definition.kind == Approval { return Approve; }
    return Launch;
  }

  /** Enters one node into a decision. */
  function Enter(d: Decision, fate: Fate, i: NodeId): Decision
  {
    match fate
    case SkipUpstream => d.(skipUpstream := d.skipUpstream + [i])
    case SkipCondition => d.(skipConditions := d.skipConditions + [i])
    case SkipFailurePolicy => d.(skipFailurePolicy := d.skipFailurePolicy + [i])
    case Approve => d.(readyApprovals := d.readyApprovals + [i])
    case Launch => if d.available > 0 then d.(readyAgents := d.readyAgents + [i], available := d.available - 1) else d
    case _ => d
  }

  ghost function Gathered(fates: seq<Fate>, limit: nat, active: nat, stop: bool, n: nat): Outcome<Decision>
    requires n <= |fates|
  {
    if n == 0 then Ok(Decision([], [], [], [], [], limit, active, Free(limit, active), stop, false))
    else
      var before := Gathered(fates, limit, active, stop, n - 1);
      if before.Err? then before
      else if fates[n - 1] == Unclear then Err(BadCondition(n - 1))
      else Ok(Enter(before.value, fates[n - 1], n - 1))
  }

  lemma {:induction false} FirstErrorStays(fates: seq<Fate>, limit: nat, active: nat, stop: bool, m: nat, n: nat)
    requires m <= n <= |fates| && Gathered(fates, limit, active, stop, m).Err?
    ensures Gathered(fates, limit, active, stop, n) == Gathered(fates, limit, active, stop, m)
  {
    if m < n { FirstErrorStays(fates, limit, active, stop, m, n - 1); }
  }

  /** Entering the nodes one by one lists them by fate, up to the first unclear one. */
  lemma {:induction false} GatheredByFate(fates: seq<Fate>, limit: nat, active: nat, stop: bool, n: nat)
    requires n <= |fates|
    ensures Gathered(fates, limit, active, stop, n) ==
              if Fated(fates, Unclear, n) != [] then Err(BadCondition(Fated(fates, Unclear, n)[0]))
              else Ok(DecisionUpTo(fates, limit, active, stop, n))
  {
    if n > 0 {
      GatheredByFate(fates, limit, active, stop, n - 1);
      var before := Fated(fates, Launch, n - 1);
      assert First(before + [n - 1], Free(limit, active)) ==
               if |before| < Free(limit, active) then before + [n - 1] else First(before, Free(limit, active));
      assert fates[n - 1] != Launch ==> Fated(fates, Launch, n) == before;
      assert fates[n - 1] != Unclear ==>
          DecisionUpTo(fates, limit, active, stop, n) == Enter(DecisionUpTo(fates, limit, active, stop, n - 1), fates[n - 1], n - 1);
    }
  }

  method GatherDecision(doc: Document, nodes: seq<Node>, limit: nat, active: nat, stop: bool) returns (r: Outcome<Decision>)
    requires Fits(doc, nodes)
    ensures r == Gathered(Fates(doc, nodes, stop, |nodes|), limit, active, stop, |nodes|)
  {
    var results := Results(nodes);
    var d := Decision([], [], [], [], [], limit, active, if active <= limit then limit - active else 0, stop, false);
    ghost var fates := Fates(doc, nodes, stop, |nodes|);
    var i := 0;
    while i < |nodes|
      invariant 0 <= i <= |nodes| && Gathered(fates, limit, active, stop, i) == Ok(d)
    {
      var fate := Decide(doc, nodes, results, stop, i);
      if fate == Unclear {
        FirstErrorStays(fates, limit, active, stop, i + 1, |nodes|);
        return Err(BadCondition(i));
      }
      d := Enter(d, fate, i);
      i := i + 1;
    }
    return Ok(d);
  }

  method PlanSchedule(doc: Document, conclusion: Conclusion, nodes: seq<Node>, backendLimit: int) returns (r: Outcome<Decision>)
    requires Fits(doc, nodes)
    ensures r == Plan(doc, conclusion, nodes, backendLimit)
  {
    if doc.maxConcurrency < 1 { return Err(BadWorkflowLimit); }
    if backendLimit < 0 { return Err(BadBackendLimit); }
    var limit: nat := SAFETY_CEILING;
    if doc.maxConcurrency < limit { limit := doc.maxConcurrency; }
    if backendLimit > 0 && backendLimit < limit { limit := backendLimit; }
    var active, stop := Survey(conclusion, nodes);
    GatheredByFate(Fates(doc, nodes, stop, |nodes|), limit, active, stop, |nodes|);
    r := GatherDecision(doc, nodes, limit, active, stop);
    if r.Err? { return r; }
    var complete := CheckComplete(nodes);
    return Ok(r.value.(complete := complete));
  }

  method CheckComplete(nodes: seq<Node>) returns (complete: bool)
    ensures complete == AllDone(nodes)
  {
    complete := true;
    var i := 0;
    while i < |nodes|
      invariant 0 <= i <= |nodes| && forall j :: 0 <= j < i ==> Done(nodes[j])
    {
      if !Done(nodes[i]) { return false; }
      i := i + 1;
    }
  }

  // ----- what a run's state adds up to -----

  datatype RunPhase = Created | RunRunning | RunWaiting | Paused | Cancelling | RunCompleted

  datatype Run = Run(phase: RunPhase, conclusion: Conclusion, reason: Reason, cancelRequested: bool)

  predicate MentionsRejected(c: Condition)
    decreases c
  {
    match c
    case Compare(_, field, equals) => field == "result.decision" && equals == "rejected"
    case All(children) => AnyMentionsRejected(children)
    case Any(children) => AnyMentionsRejected(children)
    case Not(child) => MentionsRejected(child)
  }

  predicate AnyMentionsRejected(cs: seq<Condition>)
    decreases cs
  {
    cs != [] && (MentionsRejected(cs[0]) || AnyMentionsRejected(cs[1..]))
  }

  predicate EligibleRejectedBranch(doc: Document, nodes: seq<Node>)
    requires |nodes| == |doc.nodes|
  {
    exists i :: 0 <= i < |nodes| && doc.nodes[i].guard.Some? && MentionsRejected(doc.nodes[i].guard.value)
      && nodes[i].reason != ConditionFalse
  }

  /** The worst conclusion of all nodes; a rejection counts as success when a branch
      is there to handle it. */
  ghost function AggregateConclusion(doc: Document, nodes: seq<Node>): (Conclusion, Reason)
    requires |nodes| == |doc.nodes|
  {
    if exists n :: n in nodes && n.conclusion == Failed then (Failed, UpstreamFailed)
    else if exists n :: n in nodes && n.conclusion == Indeterminate then (Indeterminate, NoReason)
    else if (exists n :: n in nodes && n.conclusion == Rejected) && !EligibleRejectedBranch(doc, nodes) then (Rejected, NoReason)
    else (Succeeded, NoReason)
  }

  method Conclude(doc: Document, nodes: seq<Node>) returns (conclusion: Conclusion, reason: Reason)
    requires |nodes| == |doc.nodes|
    ensures (conclusion, reason) == AggregateConclusion(doc, nodes)
  {
    conclusion := Succeeded;
    var i := 0;
    while i < |nodes|
      invariant 0 <= i <= |nodes|
      invariant forall n :: n in nodes[..i] ==> n.conclusion != Failed
      invariant conclusion == Indeterminate || conclusion == Rejected || conclusion == Succeeded
      invariant conclusion == Indeterminate <==> exists n :: n in nodes[..i] && n.conclusion == Indeterminate
      invariant conclusion == Succeeded ==> forall n :: n in nodes[..i] ==> n.conclusion != Rejected
      invariant conclusion == Rejected ==> exists n :: n in nodes[..i] && n.conclusion == Rejected
    {
      assert nodes[..i + 1] == nodes[..i] + [nodes[i]] && nodes[i] in nodes;
      if nodes[i].conclusion == Failed { return Failed, UpstreamFailed; }
      if nodes[i].conclusion == Indeterminate { conclusion := Indeterminate; }
      if nodes[i].conclusion == Rejected && conclusion == Succeeded { conclusion := Rejected; }
      i := i + 1;
    }
    assert nodes[..i] == nodes;
    if conclusion == Rejected && EligibleRejectedBranch(doc, nodes) { return Succeeded, NoReason; }
    return conclusion, NoReason;
  }

  predicate RunningAgent(n: Node) { n.kind == Agent && n.phase == Running }

  predicate WaitingAgent(n: Node) { n.kind == Agent && n.phase == Waiting }

  predicate WaitingApproval(n: Node) { n.kind == Approval && n.phase == Waiting }

  ghost function WaitingAgents(nodes: seq<Node>): seq<Node>
  {
    if nodes == [] then []
    else
      var last := nodes[|nodes| - 1];
      WaitingAgents(nodes[..|nodes| - 1]) + if WaitingAgent(last) then [last] else []
  }

  ghost predicate Some(nodes: seq<Node>, p: Node -> bool) { exists i :: 0 <= i < |nodes| && p(nodes[i]) }

  /** The run's phase as the nodes determine it, and whether the controller stops. */
  ghost function Aggregate(run: Run, doc: Document, nodes: seq<Node>): (Run, bool)
    requires |nodes| == |doc.nodes|
  {
    if Some(nodes, RunningAgent) then (run.(phase := RunRunning, conclusion := NoConclusion, reason := NoReason), false)
    else if WaitingAgents(nodes) != [] then
      (run.(phase := RunWaiting, conclusion := NoConclusion, reason := WaitingAgents(nodes)[0].reason), true)
    else if Some(nodes, WaitingApproval) then (run.(phase := RunWaiting, conclusion := NoConclusion, reason := ApprovalRequired), true)
    else if Some(nodes, Unstarted) then (run.(phase := RunRunning, conclusion := NoConclusion, reason := NoReason), false)
    else
      var (conclusion, reason) := AggregateConclusion(doc, nodes);
      (run.(phase := RunCompleted, conclusion := conclusion, reason := reason), true)
  }

  method AggregateRunState(run: Run, doc: Document, nodes: seq<Node>) returns (after: Run, stop: bool)
    requires |nodes| == |doc.nodes|
    ensures (after, stop) == Aggregate(run, doc, nodes)
  {
    var running, waitingAgents, waitingApprovals, pending := 0, [], 0, 0;
    var i := 0;
    while i < |nodes|
      invariant 0 <= i <= |nodes| && running >= 0 && waitingApprovals >= 0 && pending >= 0
      invariant running > 0 <==> exists j :: 0 <= j < i && RunningAgent(nodes[j])
      invariant waitingAgents == WaitingAgents(nodes[..i])
      invariant waitingApprovals > 0 <==> exists j :: 0 <= j < i && WaitingApproval(nodes[j])
      invariant pending > 0 <==> exists j :: 0 <= j < i && Unstarted(nodes[j])
    {
      assert nodes[..i + 1][..i] == nodes[..i];
      match nodes[i].phase {
        case Running => if nodes[i].kind == Agent { running := running + 1; }
        case Waiting =>
          if nodes[i].kind == Agent { waitingAgents := waitingAgents + [nodes[i]]; } else { waitingApprovals := waitingApprovals + 1; }
        case Pending => pending := pending + 1;
        case Ready => pending := pending + 1;
        case _ =>
      }
      i := i + 1;
    }
    assert nodes[..i] == nodes;
    if running > 0 { return run.(phase := RunRunning, conclusion := NoConclusion, reason := NoReason), false; }
    if |waitingAgents| > 0 {
      return run.(phase := RunWaiting, conclusion := NoConclusion, reason := waitingAgents[0].reason), true;
    }
    if waitingApprovals > 0 { return run.(phase := RunWaiting, conclusion := NoConclusion, reason := ApprovalRequired), true; }
    if pending > 0 { return run.(phase := RunRunning, conclusion := NoConclusion, reason := NoReason), false; }
    var conclusion, reason := Conclude(doc, nodes);
    return run.(phase := RunCompleted, conclusion := conclusion, reason := reason), true;
  }

  lemma {:induction false} WaitingAgentsExist(nodes: seq<Node>)
    ensures WaitingAgents(nodes) != [] <==> Some(nodes, WaitingAgent)
  {
    if nodes != [] {
      WaitingAgentsExist(nodes[..|nodes| - 1]);
      if Some(nodes[..|nodes| - 1], WaitingAgent) {
        var i :| 0 <= i < |nodes| - 1 && WaitingAgent(nodes[..|nodes| - 1][i]);
        assert WaitingAgent(nodes[i]);
      }
    }
  }

  // ----- the scheduler never stalls -----

  lemma {:induction false} FatedExactly(doc: Document, nodes: seq<Node>, stop: bool, fate: Fate, n: nat)
    requires Fits(doc, nodes) && n <= |nodes|
    ensures forall i :: i in Fated(Fates(doc, nodes, stop, |nodes|), fate, n) <==> 0 <= i < n && FateOf(doc, nodes, stop, i) == fate
  {
    if n > 0 {
      FatedExactly(doc, nodes, stop, fate, n - 1);
      FateAt(doc, nodes, stop, |nodes|, n - 1);
    }
  }

  ghost predicate Increasing(r: seq<NodeId>, n: nat)
  {
    (forall j :: 0 <= j < |r| ==> r[j] < n) && forall j, k :: 0 <= j < k < |r| ==> r[j] < r[k]
  }

  lemma {:induction false} FatedIncreasing(fates: seq<Fate>, fate: Fate, n: nat)
    requires n <= |fates|
    ensures Increasing(Fated(fates, fate, n), n)
  {
    if n > 0 {
      FatedIncreasing(fates, fate, n - 1);
      var before := Fated(fates, fate, n - 1);
      assert Increasing(before, n - 1);
      assert Increasing(before + [n - 1], n);
    }
  }

  ghost predicate Empty(d: Decision)
  {
    d.readyAgents == [] && d.readyApprovals == [] && d.skipUpstream == [] && d.skipConditions == [] && d.skipFailurePolicy == []
  }

  /** A decision lists every node once, under its own fate; of the agents that could
      launch it takes the first ones that fit, and no other. */
  lemma DecisionMeaning(doc: Document, conclusion: Conclusion, nodes: seq<Node>, backendLimit: int)
    requires Fits(doc, nodes) && Plan(doc, conclusion, nodes, backendLimit).Ok?
    ensures
      var d, stop := Plan(doc, conclusion, nodes, backendLimit).value, Stops(conclusion, nodes);
      var candidates := Fated(Fates(doc, nodes, stop, |nodes|), Launch, |nodes|);
      && EffectiveConcurrency(doc.maxConcurrency, backendLimit) == Ok(d.limit)
      && (forall i :: i in d.readyApprovals <==> 0 <= i < |nodes| && FateOf(doc, nodes, stop, i) == Approve)
      && (forall i :: i in d.skipUpstream <==> 0 <= i < |nodes| && FateOf(doc, nodes, stop, i) == SkipUpstream)
      && (forall i :: i in d.skipConditions <==> 0 <= i < |nodes| && FateOf(doc, nodes, stop, i) == SkipCondition)
      && (forall i :: i in d.skipFailurePolicy <==> 0 <= i < |nodes| && FateOf(doc, nodes, stop, i) == SkipFailurePolicy)
      && (forall i :: i in d.readyAgents ==> 0 <= i < |nodes| && FateOf(doc, nodes, stop, i) == Launch)
      && d.readyAgents <= candidates && d.available + |d.readyAgents| == Free(d.limit, CountActive(nodes))
      && (d.available == 0 || d.readyAgents == candidates)
      && (forall i :: 0 <= i < |nodes| ==> FateOf(doc, nodes, stop, i) != Unclear)
      && (CountActive(nodes) <= d.limit ==> CountActive(nodes) + |d.readyAgents| <= d.limit)
      && d.complete == AllDone(nodes)
  {
    var stop := Stops(conclusion, nodes);
    FatedExactly(doc, nodes, stop, Approve, |nodes|);
    FatedExactly(doc, nodes, stop, SkipUpstream, |nodes|);
    FatedExactly(doc, nodes, stop, SkipCondition, |nodes|);
    FatedExactly(doc, nodes, stop, SkipFailurePolicy, |nodes|);
    FatedExactly(doc, nodes, stop, Launch, |nodes|);
    FatedExactly(doc, nodes, stop, Unclear, |nodes|);
  }

  /** The first node that has not started is never blocked, unless something before it runs. */
  lemma FirstUnstarted(doc: Document, nodes: seq<Node>, i: NodeId)
    requires Fits(doc, nodes) && i < |nodes| && Unstarted(nodes[i])
    requires forall j :: 0 <= j < |nodes| ==> nodes[j].phase != Running && nodes[j].phase != Waiting
    ensures exists k :: 0 <= k <= i && Unstarted(nodes[k]) && Stable(doc, nodes, k)
  {
    if !Stable(doc, nodes, i) {
      var d :| d in doc.nodes[i].dependsOn && !Done(nodes[d]);
      FirstUnstarted(doc, nodes, d);
    }
  }

  lemma {:induction false} NoneActive(nodes: seq<Node>)
    requires forall i :: 0 <= i < |nodes| ==> nodes[i].phase != Running && nodes[i].phase != Waiting
    ensures CountActive(nodes) == 0
  {
    if nodes != [] { NoneActive(nodes[..|nodes| - 1]); }
  }

  /** The scheduler never stalls: with work left and nothing running or waiting, a
      decision, when there is one, always does something. */
  lemma NeverStalls(doc: Document, conclusion: Conclusion, nodes: seq<Node>, backendLimit: int)
    requires Fits(doc, nodes) && Plan(doc, conclusion, nodes, backendLimit).Ok?
    requires forall i :: 0 <= i < |nodes| ==> nodes[i].phase != Running && nodes[i].phase != Waiting
    requires exists i :: 0 <= i < |nodes| && Unstarted(nodes[i])
    ensures !Empty(Plan(doc, conclusion, nodes, backendLimit).value)
  {
    hide FateOf, Fates, Fated, CountActive, Stops, Stable;
    var d, stop := Plan(doc, conclusion, nodes, backendLimit).value, Stops(conclusion, nodes);
    var i :| 0 <= i < |nodes| && Unstarted(nodes[i]);
    FirstUnstarted(doc, nodes, i);
    var k :| 0 <= k <= i && Unstarted(nodes[k]) && Stable(doc, nodes, k);
    NoneActive(nodes);
    DecisionMeaning(doc, conclusion, nodes, backendLimit);
    LimitIsLargest(doc.maxConcurrency, backendLimit, 0);
    FatedExactly(doc, nodes, stop, Launch, |nodes|);
    StableIsDecided(doc, nodes, stop, k);
    if FateOf(doc, nodes, stop, k) == Launch { assert k in Fated(Fates(doc, nodes, stop, |nodes|), Launch, |nodes|); }
  }

  lemma StableIsDecided(doc: Document, nodes: seq<Node>, stop: bool, k: NodeId)
    requires Fits(doc, nodes) && k < |nodes| && Unstarted(nodes[k]) && Stable(doc, nodes, k)
    ensures FateOf(doc, nodes, stop, k) != Nothing && FateOf(doc, nodes, stop, k) != Blocked
  {
  }

  /** A node that could be decided, but whose condition has no value and no failed
      dependency that explains why a result is missing. */
  ghost predicate Undecidable(doc: Document, nodes: seq<Node>, i: NodeId)
    requires Fits(doc, nodes) && i < |nodes|
  {
    && Unstarted(nodes[i]) && Stable(doc, nodes, i)
    && doc.nodes[i].guard.Some? && Evaluate(doc.nodes[i].guard.value, Results(nodes)) == Broken
    && (UpstreamHasFailed(doc, nodes, i) ==> !ResultMissing(doc.nodes[i].guard.value, Results(nodes)))
  }

  lemma UnclearMeaning(doc: Document, nodes: seq<Node>, stop: bool, i: NodeId)
    requires Fits(doc, nodes) && i < |nodes|
    ensures FateOf(doc, nodes, stop, i) == Unclear <==> Undecidable(doc, nodes, i)
  {
  }

  /** Exactly when planning fails: a limit is out of range, or some node is undecidable. */
  lemma PlanFails(doc: Document, conclusion: Conclusion, nodes: seq<Node>, backendLimit: int)
    requires Fits(doc, nodes)
    ensures Plan(doc, conclusion, nodes, backendLimit).Err? <==>
              || doc.maxConcurrency < 1 || backendLimit < 0
              || exists i :: 0 <= i < |nodes| && Undecidable(doc, nodes, i)
  {
    var stop := Stops(conclusion, nodes);
    FatedExactly(doc, nodes, stop, Unclear, |nodes|);
    var unclear := Fated(Fates(doc, nodes, stop, |nodes|), Unclear, |nodes|);
    if i :| 0 <= i < |nodes| && Undecidable(doc, nodes, i) {
      UnclearMeaning(doc, nodes, stop, i);
      assert i in unclear;
    } else if unclear != [] {
      assert unclear[0] in unclear;
      UnclearMeaning(doc, nodes, stop, unclear[0]);
    }
  }

  /** Aggregation reports completion exactly when every node is done, or is a running
      approval, which no run ever has. */
  lemma CompletedWhenDone(run: Run, doc: Document, nodes: seq<Node>)
    requires |nodes| == |doc.nodes|
    ensures Aggregate(run, doc, nodes).0.phase == RunCompleted <==>
              forall i :: 0 <= i < |nodes| ==> Done(nodes[i]) || (nodes[i].kind == Approval && nodes[i].phase == Running)
    ensures Aggregate(run, doc, nodes).0.phase == RunCompleted <==> Aggregate(run, doc, nodes).0.conclusion != NoConclusion
    ensures Aggregate(run, doc, nodes).0.phase in {RunRunning, RunWaiting, RunCompleted}
  {
    WaitingAgentsExist(nodes);
  }
}
