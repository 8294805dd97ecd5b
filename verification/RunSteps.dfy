/** Every step keeps the run machine's invariant. */
module RunSteps {
  import opened Workflow
  import opened Scheduler
  import opened Topology
  import opened RunMachine
  import opened RunInvariant

  // ----- the invariant of the controller and the canceller -----

  /** A launch in flight is its node's current attempt, on disk at the launch state that
      goes with the flight, and not started before its Start is called. */
  ghost predicate FlightOk(s: State, k: Key)
    requires k in s.flights
  {
    && s.stage == Launching && k in s.disk.attempts && Current(s.disk.nodes, k) && s.disk.nodes[k.node].kind == Agent
    && (!s.disk.run.cancelRequested ==> Active(s.disk.nodes[k.node]))
    && (InPlay(s.disk.nodes[k.node]) ==> !Concluded(s.disk.attempts[k]))
    && match s.flights[k] {
         case Queued => s.disk.attempts[k].launch == Prepared && k !in s.past.started
         case Begun => s.disk.attempts[k].launch == Dispatching && k !in s.past.started
         case Called(_, _) => s.disk.attempts[k].launch == Dispatching && k in s.past.started
         case Landed(handle, _) => !handle ==> !s.disk.attempts[k].handle
       }
  }

  ghost predicate FlightsOk(s: State) { forall k :: k in s.flights ==> FlightOk(s, k) }

  ghost predicate ApartKeys(keys: seq<Key>)
  {
    forall i, j :: 0 <= i < j < |keys| ==> keys[i].node != keys[j].node
  }

  /** While attempts are observed, those not settled yet stay current and active unless a
      cancellation has begun, and a missing handle stays missing. */
  ghost predicate ObservingOk(s: State)
  {
    s.stage.Observing? ==>
      && s.stage.settled <= |s.stage.refs| && ApartKeys(s.stage.refs)
      && (forall k :: k in s.stage.refs ==> k in s.disk.attempts && k.node < |s.disk.nodes|)
      && (!s.disk.run.cancelRequested ==>
            forall j :: s.stage.settled <= j < |s.stage.refs| ==> Current(s.disk.nodes, s.stage.refs[j]) && Active(s.disk.nodes[s.stage.refs[j].node]))
      && (forall k :: k in s.stage.verdicts ==>
            && k in s.disk.attempts
            && (s.stage.verdicts[k] == Missing ==> !s.disk.attempts[k].handle)
            && (s.stage.verdicts[k] == Report(Gone) ==> k in s.past.gone))
  }

  /** An attempt that a cancellation deals with: its node's current one. */
  ghost predicate AtHand(d: Disk, k: Key) { k in d.attempts && Current(d.nodes, k) && InPlay(d.nodes[k.node]) }

  /** While a cancellation is polled its targets are at hand; an active node that is no
      target had its attempt cancelled before. */
  ghost predicate CancelOk(s: State)
  {
    s.canceller.Polling? ==>
      && s.disk.run.cancelRequested && ApartKeys(s.canceller.targets)
      && (forall k :: k in s.canceller.polls <==> k in s.canceller.targets)
      && (forall k :: k in s.canceller.targets ==> AtHand(s.disk, k))
      && (forall i :: 0 <= i < |s.disk.nodes| && Active(s.disk.nodes[i]) ==>
            var k := Key(i, s.disk.nodes[i].attempt);
            k in s.canceller.targets || (k in s.disk.attempts && AlreadyCancelled(s.disk.attempts[k])))
  }

  /** The one attempt that recovery deals with. */
  function InHand(stage: Stage): Option<Key>
  {
    if !stage.Recovering? then None
    else
      match stage.progress
      case Looking(k) => Some(k)
      case Asking(k) => Some(k)
      case Ending(first) => first
      case _ => None
  }

  ghost predicate RecoverOk(s: State)
  {
    && (s.stage.Recovering? ==> s.disk.run.cancelRequested)
    && (InHand(s.stage).Some? ==> AtHand(s.disk, InHand(s.stage).value))
  }

  ghost predicate Inv(sys: System, s: State)
  {
    DiskOk(sys.doc, s.disk, s.past) && FlightsOk(s) && ObservingOk(s) && CancelOk(s) && RecoverOk(s)
  }

  // ----- active attempts -----

  lemma {:induction false} ActiveKeysExactly(nodes: seq<Node>)
    ensures forall k :: k in ActiveKeys(nodes) <==> Current(nodes, k) && Active(nodes[k.node])
    ensures ApartKeys(ActiveKeys(nodes))
  {
    if nodes != [] {
      var i := |nodes| - 1;
      ActiveKeysExactly(nodes[..i]);
      var before := ActiveKeys(nodes[..i]);
      forall k ensures k in ActiveKeys(nodes) <==> Current(nodes, k) && Active(nodes[k.node]) {
        if k.node < i { assert nodes[..i][k.node] == nodes[k.node]; }
        assert k in before <==> Current(nodes[..i], k) && Active(nodes[..i][k.node]);
      }
      forall j | 0 <= j < |before| ensures before[j].node < i { assert before[j] in before; }
    }
  }

  lemma {:induction false} TargetsExactly(d: Disk, keys: seq<Key>)
    ensures forall k :: k in Targets(d, keys) <==>
              k in keys && !(k in d.attempts && AlreadyCancelled(d.attempts[k]))
    ensures ApartKeys(keys) ==> ApartKeys(Targets(d, keys))
  {
    if keys != [] {
      var i := |keys| - 1;
      TargetsExactly(d, keys[..i]);
      assert keys == keys[..i] + [keys[i]];
      if ApartKeys(keys) {
        var before := Targets(d, keys[..i]);
        forall j | 0 <= j < |before| ensures before[j].node != keys[i].node {
          assert before[j] in before;
          var m :| 0 <= m < i && keys[..i][m] == before[j];
          assert keys[m] == before[j];
        }
      }
    }
  }

  // ----- steps of the controller -----

  lemma StartControlKeeps(sys: System, s: State, rewrite: bool, writes: nat)
    requires Inv(sys, s)
    ensures Inv(sys, DoStartControl(s, rewrite, writes))
  {
    var t := DoStartControl(s, rewrite, writes);
    if t.disk != s.disk {
      RunWriteKeeps(sys.doc, s.disk, s.past, t.disk.run, t.disk);
    }
  }

  /** Dropping every launch and the controller is safe: what was not started stays so. */
  lemma HaltKeeps(sys: System, s: State)
    requires Inv(sys, s)
    ensures Inv(sys, Halt(s))
  {
  }

  lemma FailControlKeeps(sys: System, s: State, paused: bool, writes: nat)
    requires Inv(sys, s)
    ensures Inv(sys, DoFailControl(s, paused, writes))
  {
    var t := DoFailControl(s, paused, writes);
    HaltKeeps(sys, s);
    if s.stage != Off && Joined(s) && Mutable(s) && t.disk != s.disk {
      RunWriteKeeps(sys.doc, s.disk, s.past, t.disk.run, t.disk);
    }
  }

  lemma BeginReconcileKeeps(sys: System, s: State)
    requires Inv(sys, s)
    ensures Inv(sys, DoBeginReconcile(s))
  {
    HaltKeeps(sys, s);
    ActiveKeysExactly(s.disk.nodes);
    var refs := ActiveKeys(s.disk.nodes);
    if DoBeginReconcile(s).stage.Observing? && s.stage == Idle {
      forall k | k in refs ensures k in s.disk.attempts {
        assert NodeSound(s.disk.nodes[k.node]);
        assert Key(k.node, s.disk.nodes[k.node].attempt) == k;
      }
    }
  }

  lemma GoneGrows(doc: Document, d: Disk, past: Past, k: Key)
    requires DiskOk(doc, d, past)
    ensures DiskOk(doc, d, past.(gone := past.gone + {k}))
  {
  }

  lemma ObserveKeeps(sys: System, s: State, k: Key, seen: Observation)
    requires Inv(sys, s)
    ensures Inv(sys, DoObserve(s, k, seen))
  {
    hide DiskOk;
    GoneGrows(sys.doc, s.disk, s.past, k);
  }

  lemma EndReconcileKeeps(sys: System, s: State)
    requires Inv(sys, s)
    ensures Inv(sys, DoEndReconcile(s))
  {
    hide DiskOk;
  }

  lemma SettleLegal(sys: System, s: State)
    requires Inv(sys, s) && s.stage.Observing? && s.stage.settled < |s.stage.refs| && AllObserved(s.stage) && Mutable(s)
    requires EditFor(s.stage.refs[s.stage.settled], s.stage.verdicts[s.stage.refs[s.stage.settled]]).Some?
    ensures
      var e := EditFor(s.stage.refs[s.stage.settled], s.stage.verdicts[s.stage.refs[s.stage.settled]]).value;
      Applies(sys.doc, s.disk, e) && Legal(s.disk, s.past.gone, e) && NodeOf(e) == s.stage.refs[s.stage.settled].node
  {
    assert s.stage.refs[s.stage.settled] in s.stage.refs;
  }

  lemma SettleKeeps(sys: System, s: State, writes: nat)
    requires Inv(sys, s)
    ensures Inv(sys, DoSettle(sys, s, writes))
  {
    hide DiskOk, Perform, Legal;
    if s.stage.Observing? && s.stage.settled < |s.stage.refs| && AllObserved(s.stage) {
      var k := s.stage.refs[s.stage.settled];
      assert k in s.stage.refs;
      var e := EditFor(k, s.stage.verdicts[k]);
      if e.Some? && Mutable(s) {
        SettleEdits(sys, s, writes);
      } else if e.Some? {
        HaltKeeps(sys, s);
      }
    }
  }

  lemma SettleEdits(sys: System, s: State, writes: nat)
    requires Inv(sys, s) && s.stage.Observing? && s.stage.settled < |s.stage.refs| && AllObserved(s.stage) && Mutable(s)
    requires EditFor(s.stage.refs[s.stage.settled], s.stage.verdicts[s.stage.refs[s.stage.settled]]).Some?
    ensures Inv(sys, DoSettle(sys, s, writes))
  {
    hide DiskOk, Perform, Legal;
    var k := s.stage.refs[s.stage.settled];
    assert forall j :: s.stage.settled < j < |s.stage.refs| ==> s.stage.refs[j].node != k.node;
    var e := EditFor(k, s.stage.verdicts[k]);
    SettleLegal(sys, s);
    EditKeeps(sys.doc, Fresh(s, writes), s.past, e.value);
  }

  // ----- scheduling -----

  /** The fate behind each kind of edit. */
  ghost predicate FatedEdit(sys: System, d: Disk, e: Edit)
    requires Fits(sys.doc, d.nodes)
  {
    NodeOf(e) < |d.nodes| && FateOf(sys.doc, d.nodes, Stops(d.run.conclusion, d.nodes), NodeOf(e)) == FateBehind(e)
  }

  ghost function FateBehind(e: Edit): Fate
  {
    match e
    case Drop(_, UpstreamFailed) => SkipUpstream
    case Drop(_, ConditionFalse) => SkipCondition
    case Drop(_, _) => SkipFailurePolicy
    case Ask(_) => Approve
    case _ => Launch
  }

  /** Edits made for different fates are made on different nodes. */
  lemma ApartByFate(sys: System, d: Disk, a: seq<Edit>, b: seq<Edit>)
    requires Fits(sys.doc, d.nodes) && Apart(a) && Apart(b)
    requires forall i :: 0 <= i < |a| ==> FatedEdit(sys, d, a[i])
    requires forall j :: 0 <= j < |b| ==> FatedEdit(sys, d, b[j])
    requires forall i, j :: 0 <= i < |a| && 0 <= j < |b| ==> FateBehind(a[i]) != FateBehind(b[j])
    ensures Apart(a + b) && forall i :: 0 <= i < |a + b| ==> FatedEdit(sys, d, (a + b)[i])
  {
    hide FateOf, FateBehind;
  }

  ghost function FatedNow(sys: System, d: Disk, fate: Fate): seq<NodeId>
    requires Fits(sys.doc, d.nodes)
  {
    Fated(Fates(sys.doc, d.nodes, Stops(d.run.conclusion, d.nodes), |d.nodes|), fate, |d.nodes|)
  }

  /** Nodes of one fate, each once. */
  ghost predicate OfFate(sys: System, d: Disk, ids: seq<NodeId>, fate: Fate)
    requires Fits(sys.doc, d.nodes)
  {
    && (forall j :: 0 <= j < |ids| ==> ids[j] < |d.nodes| && FateOf(sys.doc, d.nodes, Stops(d.run.conclusion, d.nodes), ids[j]) == fate)
    && (forall i, j :: 0 <= i < j < |ids| ==> ids[i] != ids[j])
  }

  lemma OneFate(sys: System, d: Disk, fate: Fate)
    requires Fits(sys.doc, d.nodes)
    ensures OfFate(sys, d, FatedNow(sys, d, fate), fate)
  {
    hide FateOf;
    var stop := Stops(d.run.conclusion, d.nodes);
    FatedExactly(sys.doc, d.nodes, stop, fate, |d.nodes|);
    FatedIncreasing(Fates(sys.doc, d.nodes, stop, |d.nodes|), fate, |d.nodes|);
    var ids := FatedNow(sys, d, fate);
    assert forall j :: 0 <= j < |ids| ==> ids[j] in ids;
  }

  /** The edits made for one fate. */
  ghost predicate MadeFor(sys: System, d: Disk, es: seq<Edit>, fate: Fate)
    requires Fits(sys.doc, d.nodes)
  {
    Apart(es) && forall i :: 0 <= i < |es| ==> FatedEdit(sys, d, es[i]) && FateBehind(es[i]) == fate
  }

  lemma DropsMadeFor(sys: System, d: Disk, ids: seq<NodeId>, fate: Fate, reason: Reason)
    requires Fits(sys.doc, d.nodes) && FateBehind(Drop(0, reason)) == fate && OfFate(sys, d, ids, fate)
    ensures MadeFor(sys, d, Drops(ids, reason), fate)
  {
    hide FateOf, Stops;
  }

  lemma AsksMadeFor(sys: System, d: Disk, ids: seq<NodeId>)
    requires Fits(sys.doc, d.nodes) && OfFate(sys, d, ids, Approve)
    ensures MadeFor(sys, d, Asks(ids), Approve)
  {
    hide FateOf, Stops;
  }

  lemma AssignsMadeFor(sys: System, d: Disk, ids: seq<NodeId>)
    requires Fits(sys.doc, d.nodes) && OfFate(sys, d, ids, Launch)
    ensures MadeFor(sys, d, Assigns(ids), Launch)
  {
    hide FateOf, Stops;
  }

  lemma FirstOfFate(sys: System, d: Disk, ids: seq<NodeId>, fate: Fate, n: nat)
    requires Fits(sys.doc, d.nodes) && OfFate(sys, d, ids, fate)
    ensures OfFate(sys, d, First(ids, n), fate)
  {
    hide FateOf, Stops;
  }

  lemma DecisionApart(sys: System, d: Disk, limit: nat)
    requires NodesOk(sys.doc, d.nodes) && Plan(sys.doc, d.run.conclusion, d.nodes, limit).Ok?
    ensures
      var es := EditsOf(Plan(sys.doc, d.run.conclusion, d.nodes, limit).value);
      Apart(es) && forall i :: 0 <= i < |es| ==> FatedEdit(sys, d, es[i])
  {
    hide FateOf, Fates, Fated, Stops, OfFate;
    var decision := Plan(sys.doc, d.run.conclusion, d.nodes, limit).value;
    var free := Free(decision.limit, decision.active);
    OneFate(sys, d, SkipUpstream);
    OneFate(sys, d, SkipCondition);
    OneFate(sys, d, SkipFailurePolicy);
    OneFate(sys, d, Approve);
    OneFate(sys, d, Launch);
    FirstOfFate(sys, d, FatedNow(sys, d, Launch), Launch, free);
    DropsMadeFor(sys, d, decision.skipUpstream, SkipUpstream, UpstreamFailed);
    DropsMadeFor(sys, d, decision.skipConditions, SkipCondition, ConditionFalse);
    DropsMadeFor(sys, d, decision.skipFailurePolicy, SkipFailurePolicy, FailurePolicy);
    AsksMadeFor(sys, d, decision.readyApprovals);
    AssignsMadeFor(sys, d, decision.readyAgents);
    var a, b := Drops(decision.skipUpstream, UpstreamFailed), Drops(decision.skipConditions, ConditionFalse);
    var c, e, f := Drops(decision.skipFailurePolicy, FailurePolicy), Asks(decision.readyApprovals), Assigns(decision.readyAgents);
    assert MadeFor(sys, d, a, SkipUpstream) && MadeFor(sys, d, b, SkipCondition) && MadeFor(sys, d, c, SkipFailurePolicy);
    assert MadeFor(sys, d, e, Approve) && MadeFor(sys, d, f, Launch);
    ApartByFate(sys, d, a, b);
    ApartByFate(sys, d, a + b, c);
    ApartByFate(sys, d, a + b + c, e);
    ApartByFate(sys, d, a + b + c + e, f);
  }

  /** Every edit of a decision is legal, and no node is decided twice. */
  lemma DecisionLegal(sys: System, d: Disk, limit: nat, gone: set<Key>)
    requires NodesOk(sys.doc, d.nodes) && Plan(sys.doc, d.run.conclusion, d.nodes, limit).Ok?
    ensures
      var es := EditsOf(Plan(sys.doc, d.run.conclusion, d.nodes, limit).value);
      AllApply(sys.doc, d, es) && AllLegal(d, gone, es) && Apart(es)
  {
    var es := EditsOf(Plan(sys.doc, d.run.conclusion, d.nodes, limit).value);
    DecisionApart(sys, d, limit);
    forall i | 0 <= i < |es| ensures Applies(sys.doc, d, es[i]) && Legal(d, gone, es[i]) { FatedLegal(sys, d, gone, es[i]); }
  }

  lemma FatedLegal(sys: System, d: Disk, gone: set<Key>, e: Edit)
    requires NodesOk(sys.doc, d.nodes) && FatedEdit(sys, d, e) && (e.Drop? || e.Ask? || e.Assign?)
    ensures Applies(sys.doc, d, e) && Legal(d, gone, e)
  {
  }

  lemma FaultStays(doc: Document, p: Progress, e: Edit)
    requires Applies(doc, p.disk, e) && !p.ok
    ensures Perform(doc, p, e) == p
  {
  }

  lemma {:induction false} FaultsStay(doc: Document, p: Progress, es: seq<Edit>)
    requires AllApply(doc, p.disk, es) && !p.ok
    ensures PerformAll(doc, p, es) == p
    decreases |es|
  {
    if es != [] {
      FaultStays(doc, p, es[0]);
      assert forall i :: 0 <= i < |es| - 1 ==> es[1..][i] == es[i + 1];
      FaultsStay(doc, p, es[1..]);
    }
  }

  /** An assignment that went through: a fresh attempt, on disk for the first time, and its
      node running on it. */
  ghost predicate AssignedIn(d: Disk, e: Disk, i: NodeId)
  {
    i < |d.nodes| && i < |e.nodes| && e.nodes[i] == Assigned(d.nodes[i]) &&
    var k := Key(i, d.nodes[i].attempt + 1);
    k !in d.attempts && k in e.attempts && e.attempts[k] == FRESH
  }

  lemma {:induction false} AssignmentsDone(doc: Document, p: Progress, past: Past, es: seq<Edit>)
    requires DiskOk(doc, p.disk, past) && p.disk.run.phase != RunCompleted
    requires AllApply(doc, p.disk, es) && AllLegal(p.disk, past.gone, es) && Apart(es)
    requires PerformAll(doc, p, es).ok
    ensures forall j :: 0 <= j < |es| && es[j].Assign? ==> AssignedIn(p.disk, PerformAll(doc, p, es).disk, es[j].i)
    decreases |es|
  {
    hide DiskOk, Perform, Legal;
    if es != [] {
      var p1, rest := Perform(doc, p, es[0]), es[1..];
      EditKeeps(doc, p, past, es[0]);
      RestLegal(doc, p, past, es);
      if !p1.ok { FaultsStay(doc, p1, rest); }
      AssignmentsDone(doc, p1, past, rest);
      EditsKeep(doc, p1, past, rest);
      var q := PerformAll(doc, p1, rest);
      forall j | 0 <= j < |es| && es[j].Assign? ensures AssignedIn(p.disk, q.disk, es[j].i) {
        if j == 0 {
          AssignKeeps(doc, p, past, es[0].i);
          assert !Touched(rest, es[0].i) by { assert forall i :: 0 <= i < |rest| ==> rest[i] == es[i + 1]; }
        } else {
          assert rest[j - 1] == es[j] && NodeOf(es[j]) != NodeOf(es[0]);
        }
      }
    }
  }

  /** The launches of a batch are fresh. */
  lemma NewFlightsOk(sys: System, s: State, t: State, ids: seq<NodeId>)
    requires DiskOk(sys.doc, s.disk, s.past) && t.past == s.past && t.disk.run.cancelRequested == s.disk.run.cancelRequested
    requires t.stage == Launching && t.flights == NewFlights(t.disk.nodes, ids)
    requires forall i :: i in ids ==> AssignedIn(s.disk, t.disk, i) && s.disk.nodes[i].kind == Agent
    ensures FlightsOk(t)
    ensures forall k :: k in t.flights ==> k !in s.disk.attempts && k !in s.past.started
  {
    forall k | k in t.flights ensures FlightOk(t, k) && k !in s.disk.attempts && k !in s.past.started {
      var i :| i in ids && i < |t.disk.nodes| && k == Key(i, t.disk.nodes[i].attempt);
    }
  }

  lemma BatchKeeps(sys: System, s: State, limit: nat, writes: nat)
    requires Inv(sys, s) && s.stage == Idle && Mutable(s) && Plan(sys.doc, s.disk.run.conclusion, s.disk.nodes, limit).Ok?
    requires AllApply(sys.doc, s.disk, EditsOf(Plan(sys.doc, s.disk.run.conclusion, s.disk.nodes, limit).value))
    ensures
      var plan := Plan(sys.doc, s.disk.run.conclusion, s.disk.nodes, limit).value;
      var p := PerformAll(sys.doc, Fresh(s, writes), EditsOf(plan));
      && DiskOk(sys.doc, p.disk, s.past) && FramedAll(s.disk, p.disk, EditsOf(plan))
      && (p.ok ==> forall i :: i in plan.readyAgents ==> AssignedIn(s.disk, p.disk, i) && s.disk.nodes[i].kind == Agent)
  {
    hide DiskOk, Plan, PerformAll, FramedAll;
    DiskNodes(sys.doc, s.disk, s.past);
    var plan := Plan(sys.doc, s.disk.run.conclusion, s.disk.nodes, limit).value;
    var es := EditsOf(plan);
    var p := PerformAll(sys.doc, Fresh(s, writes), es);
    DecisionLegal(sys, s.disk, limit, s.past.gone);
    EditsKeep(sys.doc, Fresh(s, writes), s.past, es);
    if p.ok {
      AssignmentsDone(sys.doc, Fresh(s, writes), s.past, es);
      forall i | i in plan.readyAgents ensures AssignedIn(s.disk, p.disk, i) && s.disk.nodes[i].kind == Agent {
        AssignInEdits(plan, i);
        var j :| 0 <= j < |es| && es[j] == Assign(i);
      }
    }
  }

  lemma DiskNodes(doc: Document, d: Disk, past: Past)
    requires DiskOk(doc, d, past)
    ensures NodesOk(doc, d.nodes) && |past.accepted| == |d.nodes|
  {
  }

  lemma AssignInEdits(d: Decision, i: NodeId)
    requires i in d.readyAgents
    ensures exists j :: 0 <= j < |EditsOf(d)| && EditsOf(d)[j] == Assign(i)
  {
    var m :| 0 <= m < |d.readyAgents| && d.readyAgents[m] == i;
    var before := Drops(d.skipUpstream, UpstreamFailed) + Drops(d.skipConditions, ConditionFalse)
      + Drops(d.skipFailurePolicy, FailurePolicy) + Asks(d.readyApprovals);
    assert EditsOf(d) == before + Assigns(d.readyAgents);
    assert EditsOf(d)[|before| + m] == Assign(i);
  }

  /** Bringing the run's own state up to date is sound: it completes only when all nodes are done. */
  lemma AggregateKeeps(doc: Document, d: Disk, past: Past, e: Disk)
    requires DiskOk(doc, d, past) && e == d.(run := Aggregate(d.run, doc, d.nodes).0)
    ensures DiskOk(doc, e, past)
  {
    CompletedWhenDone(d.run, doc, d.nodes);
  }

  lemma ScheduleKeeps(sys: System, s: State, limit: nat, writes: nat)
    requires Inv(sys, s)
    ensures Inv(sys, DoSchedule(sys, s, limit, writes))
  {
    hide DiskOk, Plan, PerformAll, Aggregate, AllApply, EditsOf, AssignedIn;
    HaltKeeps(sys, s);
    DiskNodes(sys.doc, s.disk, s.past);
    var t := DoSchedule(sys, s, limit, writes);
    if s.stage == Idle && Mutable(s) {
      var plan := Plan(sys.doc, s.disk.run.conclusion, s.disk.nodes, limit);
      if plan.Ok? && AllApply(sys.doc, s.disk, EditsOf(plan.value)) {
        BatchKeeps(sys, s, limit, writes);
        var p := PerformAll(sys.doc, Fresh(s, writes), EditsOf(plan.value));
        if p.ok && plan.value.readyAgents != [] {
          NewFlightsOk(sys, s, t, plan.value.readyAgents);
        } else if p.ok {
          AggregateKeeps(sys.doc, p.disk, s.past, p.disk.(run := Aggregate(p.disk.run, sys.doc, p.disk.nodes).0));
        }
      }
    }
  }

  // ----- launching -----

  /** Moving an attempt's launch state forward. */
  lemma LaunchWriteKeeps(doc: Document, d: Disk, past: Past, k: Key, launch: LaunchState, handle: bool, e: Disk)
    requires DiskOk(doc, d, past) && k in d.attempts && e == d.(attempts := d.attempts[k := d.attempts[k].(launch := launch, handle := handle)])
    requires launch != Prepared && (handle <==> launch == HandlePersisted)
    requires handle && Current(d.nodes, k) && InPlay(d.nodes[k.node]) ==> !Concluded(d.attempts[k])
    requires handle ==> k in past.started
    ensures DiskOk(doc, e, past)
  {
    assert AttemptOk(d.nodes, past.gone, k, d.attempts[k]);
  }

  /** A launcher dispatches only while no cancellation is requested, so nothing that was
      released as never started is ever dispatched. */
  lemma BeginKeeps(sys: System, s: State, k: Key, writes: nat)
    requires Inv(sys, s)
    ensures Inv(sys, DoBegin(s, k, writes))
  {
    hide DiskOk;
    if k in s.flights && s.flights[k] == Queued {
      assert FlightOk(s, k);
      HandleMeans(sys, s, k);
      var t := DoBegin(s, k, writes);
      if t.disk != s.disk { DispatchWrite(sys, s, k, t.disk); }
      BeginFlights(sys, s, k, writes);
      hide FlightsOk, FlightOk;
    }
  }

  lemma BeginFlights(sys: System, s: State, k: Key, writes: nat)
    requires FlightsOk(s) && k in s.flights && s.flights[k] == Queued
    requires k in s.disk.attempts && (s.disk.attempts[k].launch == Prepared ==> !s.disk.attempts[k].handle)
    ensures FlightsOk(DoBegin(s, k, writes))
  {
    var t := DoBegin(s, k, writes);
    assert FlightOk(s, k);
    forall j | j in t.flights ensures FlightOk(t, j) { assert FlightOk(s, j); }
  }

  lemma DispatchWrite(sys: System, s: State, k: Key, e: Disk)
    requires DiskOk(sys.doc, s.disk, s.past) && k in s.disk.attempts && s.disk.attempts[k].launch == Prepared
    requires e == s.disk.(attempts := s.disk.attempts[k := s.disk.attempts[k].(launch := Dispatching)])
    ensures DiskOk(sys.doc, e, s.past)
  {
    assert AttemptOk(s.disk.nodes, s.past.gone, k, s.disk.attempts[k]);
    LaunchWriteKeeps(sys.doc, s.disk, s.past, k, Dispatching, false, e);
  }

  lemma OneFlightTurns(s: State, k: Key, flight: Flight)
    requires FlightsOk(s) && FlightOk(s.(flights := s.flights[k := flight]), k)
    ensures FlightsOk(s.(flights := s.flights[k := flight]))
  {
    var t := s.(flights := s.flights[k := flight]);
    forall j | j in t.flights ensures FlightOk(t, j) { if j != k { assert FlightOk(s, j); } }
  }

  lemma LoseDriverKeeps(sys: System, s: State, k: Key)
    requires Inv(sys, s)
    ensures Inv(sys, DoLoseDriver(s, k))
  {
    hide DiskOk, FlightsOk, ObservingOk;
    if k in s.flights && s.flights[k] == Begun {
      FlightHasNoHandle(sys, s, k);
      OneFlightTurns(s, k, Landed(false, true));
      SameObserving(s, DoLoseDriver(s, k));
    }
  }

  lemma SameObserving(s: State, t: State)
    requires ObservingOk(s) && t == s.(flights := t.flights)
    ensures ObservingOk(t)
  {
  }

  lemma FlightHasNoHandle(sys: System, s: State, k: Key)
    requires DiskOk(sys.doc, s.disk, s.past) && FlightsOk(s) && k in s.flights && s.flights[k] == Begun
    ensures FlightOk(s.(flights := s.flights[k := Landed(false, true)]), k)
  {
    hide DiskOk;
    assert FlightOk(s, k);
    HandleMeans(sys, s, k);
  }

  lemma HandleMeans(sys: System, s: State, k: Key)
    requires DiskOk(sys.doc, s.disk, s.past) && k in s.disk.attempts
    ensures s.disk.attempts[k].handle <==> s.disk.attempts[k].launch == HandlePersisted
  {
    assert AttemptOk(s.disk.nodes, s.past.gone, k, s.disk.attempts[k]);
  }

  lemma StartRecorded(doc: Document, d: Disk, past: Past, k: Key)
    requires DiskOk(doc, d, past) && k in d.attempts && Current(d.nodes, k) && d.attempts[k].launch == Dispatching && k !in past.started
    ensures DiskOk(doc, d, past.(started := past.started + multiset{k}))
  {
  }

  lemma CallStartKeeps(sys: System, s: State, k: Key, handle: bool, failed: bool)
    requires Inv(sys, s)
    ensures Inv(sys, DoCallStart(s, k, handle, failed))
  {
    hide DiskOk;
    if k in s.flights && s.flights[k] == Begun {
      assert FlightOk(s, k);
      StartRecorded(sys.doc, s.disk, s.past, k);
      var t := DoCallStart(s, k, handle, failed);
      forall j | j in t.flights ensures FlightOk(t, j) { assert FlightOk(s, j); }
    }
  }

  lemma LandKeeps(sys: System, s: State, k: Key, writes: nat)
    requires Inv(sys, s)
    ensures Inv(sys, DoLand(s, k, writes))
  {
    hide DiskOk;
    if k in s.flights && s.flights[k].Called? {
      assert FlightOk(s, k);
      HandleMeans(sys, s, k);
      var t := DoLand(s, k, writes);
      if t.disk != s.disk {
        LaunchWriteKeeps(sys.doc, s.disk, s.past, k, if s.flights[k].handle then HandlePersisted else FinishedWithoutHandle, s.flights[k].handle, t.disk);
      }
      LaunchedFrom(s, t, k);
    }
  }

  /** One launch moves on from being started; no other launch is affected. */
  lemma LaunchedFrom(s: State, t: State, k: Key)
    requires FlightsOk(s) && k in s.flights && s.flights[k].Called?
    requires t == s.(disk := t.disk, flights := t.flights) && t.disk == s.disk.(attempts := t.disk.attempts)
    requires k in t.disk.attempts && t.disk.attempts == s.disk.attempts[k := t.disk.attempts[k]]
    requires Concluded(t.disk.attempts[k]) == Concluded(s.disk.attempts[k])
    requires k in t.flights && t.flights == s.flights[k := t.flights[k]] && t.flights[k].Landed? && (!t.flights[k].handle ==> !t.disk.attempts[k].handle)
    ensures FlightsOk(t)
  {
    assert FlightOk(s, k);
    forall j | j in t.flights ensures FlightOk(t, j) { assert FlightOk(s, j); }
  }

  /** The other launches are not affected by one outcome. */
  lemma OtherFlights(s: State, t: State, k: Key)
    requires FlightsOk(s) && k in s.flights && t.flights == s.flights - {k} && t.stage == s.stage && t.past == s.past
    requires Framed(s.disk, t.disk, k.node)
    ensures FlightsOk(t)
  {
    assert FlightOk(s, k);
    forall j | j in t.flights ensures FlightOk(t, j) { assert FlightOk(s, j); }
  }

  lemma ResolveKeeps(sys: System, s: State, k: Key, writes: nat)
    requires Inv(sys, s)
    ensures Inv(sys, DoResolve(sys, s, k, writes))
  {
    hide DiskOk, Perform;
    HaltKeeps(sys, s);
    if s.stage == Launching && k in s.flights && Joined(s) {
      assert FlightOk(s, k);
      var flight := s.flights[k];
      var t := DoResolve(sys, s, k, writes);
      if flight.handle && !flight.failed {
        FramedSelf(s.disk, k.node);
        OtherFlights(s, t, k);
      } else if Mutable(s) {
        ResolveEdits(sys, s, k, writes);
      }
    }
  }

  lemma ResolveEdits(sys: System, s: State, k: Key, writes: nat)
    requires Inv(sys, s) && s.stage == Launching && k in s.flights && Joined(s) && Mutable(s)
    requires !(s.flights[k].handle && !s.flights[k].failed)
    ensures Inv(sys, DoResolve(sys, s, k, writes))
  {
    hide DiskOk, Perform;
    assert FlightOk(s, k);
    var t := DoResolve(sys, s, k, writes);
    var edit := if s.flights[k].handle then Hold(k, CompletionMissing, None) else Lose(k);
    assert Legal(s.disk, s.past.gone, edit);
    if Applies(sys.doc, s.disk, edit) {
      EditKeeps(sys.doc, Fresh(s, writes), s.past, edit);
      hide FlightsOk, FlightOk;
      if t.stage == Launching { OtherFlights(s, t, k); }
    } else {
      HaltKeeps(sys, s);
    }
  }

  lemma EndLaunchKeeps(sys: System, s: State)
    requires Inv(sys, s)
    ensures Inv(sys, DoEndLaunch(s))
  {
    hide DiskOk, FlightOk;
  }

  // ----- cancelling -----

  lemma MarkedRunOk(doc: Document, d: Disk, past: Past, run: Run)
    requires DiskOk(doc, d, past) && run.phase == Cancelling && run.conclusion == NoConclusion
    ensures DiskOk(doc, d.(run := run), past)
  {
  }

  lemma ActiveOnDisk(sys: System, s: State, k: Key)
    requires DiskOk(sys.doc, s.disk, s.past) && Current(s.disk.nodes, k) && Active(s.disk.nodes[k.node])
    ensures k in s.disk.attempts
  {
    assert NodeSound(s.disk.nodes[k.node]) && Key(k.node, s.disk.nodes[k.node].attempt) == k;
  }

  /** A cancellation targets every active attempt that is not cancelled already. */
  lemma TargetsAreActive(sys: System, s: State)
    requires DiskOk(sys.doc, s.disk, s.past)
    ensures
      var targets := Targets(s.disk, ActiveKeys(s.disk.nodes));
      && ApartKeys(targets) && (forall k :: k in targets ==> AtHand(s.disk, k) && Active(s.disk.nodes[k.node]))
      && (forall k :: Current(s.disk.nodes, k) && Active(s.disk.nodes[k.node]) ==>
            k in s.disk.attempts && (k in targets || AlreadyCancelled(s.disk.attempts[k])))
  {
    ActiveKeysExactly(s.disk.nodes);
    TargetsExactly(s.disk, ActiveKeys(s.disk.nodes));
    forall k | k in ActiveKeys(s.disk.nodes) ensures k in s.disk.attempts { ActiveOnDisk(sys, s, k); }
  }

  lemma MarkedCancelOk(sys: System, t: State, targets: seq<Key>)
    requires DiskOk(sys.doc, t.disk, t.past) && targets == Targets(t.disk, ActiveKeys(t.disk.nodes))
    requires t.canceller == Polling(targets, map k | k in targets :: Unasked)
    requires t.disk.run.cancelRequested
    ensures CancelOk(t)
  {
    hide DiskOk, Targets, ActiveKeys;
    TargetsAreActive(sys, t);
    forall i | 0 <= i < |t.disk.nodes| && Active(t.disk.nodes[i])
      ensures var k := Key(i, t.disk.nodes[i].attempt); k in targets || (k in t.disk.attempts && AlreadyCancelled(t.disk.attempts[k]))
    {
      assert Current(t.disk.nodes, Key(i, t.disk.nodes[i].attempt));
    }
  }

  lemma MarkFlights(s: State, t: State)
    requires FlightsOk(s) && t.flights == s.flights && t.stage == s.stage && t.past == s.past
    requires t.disk == s.disk.(run := t.disk.run) && t.disk.run.cancelRequested
    ensures FlightsOk(t)
  {
    forall k | k in t.flights ensures FlightOk(t, k) { assert FlightOk(s, k); }
  }

  lemma MarkCancelKeeps(sys: System, s: State, writes: nat)
    requires Inv(sys, s)
    ensures Inv(sys, DoMarkCancel(s, writes))
  {
    hide DiskOk, Targets, ActiveKeys;
    var t := DoMarkCancel(s, writes);
    if t.canceller != s.canceller {
      if t.disk != s.disk { MarkedRunOk(sys.doc, s.disk, s.past, t.disk.run); }
      MarkedCancelOk(sys, t, t.canceller.targets);
      MarkFlights(s, t);
      hide FlightsOk, CancelOk;
    }
  }

  lemma PollTargetKeeps(sys: System, s: State, k: Key, expired: bool)
    requires Inv(sys, s)
    ensures Inv(sys, DoPollTarget(s, k, expired))
  {
    hide DiskOk, FlightOk;
    SameFlights(s, DoPollTarget(s, k, expired));
  }

  lemma GiveUpKeeps(sys: System, s: State, k: Key)
    requires Inv(sys, s)
    ensures Inv(sys, DoGiveUp(s, k))
  {
    hide DiskOk, FlightOk;
    var t := DoGiveUp(s, k);
    SameFlights(s, t);
  }

  lemma SameFlights(s: State, t: State)
    requires FlightsOk(s) && t.flights == s.flights && t.disk == s.disk && t.stage == s.stage && t.past == s.past
    ensures FlightsOk(t)
  {
    forall k | k in t.flights ensures FlightOk(t, k) { assert FlightOk(s, k); }
  }

  lemma CancelBackendKeeps(sys: System, s: State, k: Key, confirmed: bool)
    requires Inv(sys, s)
    ensures Inv(sys, DoCancelBackend(s, k, confirmed))
  {
    hide DiskOk, FlightOk;
    var t := DoCancelBackend(s, k, confirmed);
    SameFlights(s, t);
  }

  lemma CrashKeeps(sys: System, s: State)
    requires Inv(sys, s)
    ensures Inv(sys, DoCrash(s))
  {
    HaltKeeps(sys, s);
  }

  // ----- recording the cancellation -----

  /** Cancelling changes no launch and no attempt number, leaves in play what is in play,
      and concludes no attempt otherwise than as cancelled. */
  ghost predicate Quiet(d: Disk, e: Disk)
  {
    && |e.nodes| == |d.nodes| && e.attempts.Keys == d.attempts.Keys
    && (forall i :: 0 <= i < |d.nodes| ==> e.nodes[i].attempt == d.nodes[i].attempt && e.nodes[i].kind == d.nodes[i].kind)
    && (forall i :: 0 <= i < |d.nodes| ==> (InPlay(e.nodes[i]) <==> InPlay(d.nodes[i])))
    && (forall k :: k in d.attempts ==> e.attempts[k].launch == d.attempts[k].launch && e.attempts[k].handle == d.attempts[k].handle)
    && (forall k :: k in d.attempts && Concluded(e.attempts[k]) ==> Concluded(d.attempts[k]))
    && e.run.cancelRequested == d.run.cancelRequested
  }

  predicate Cancels(e: Edit) { e.Confirm? || e.Refuse? || e.Drop? || e.Conclude? }

  /** A node with an attempt at hand is an agent. */
  lemma AgentInPlay(doc: Document, d: Disk, past: Past, k: Key)
    requires DiskOk(doc, d, past) && k in d.attempts && Current(d.nodes, k)
    ensures d.nodes[k.node].kind == Agent && d.nodes[k.node].attempt >= 1
  {
    assert AttemptOk(d.nodes, past.gone, k, d.attempts[k]) && NodeSound(d.nodes[k.node]);
  }

  lemma EditQuiet(doc: Document, p: Progress, past: Past, e: Edit)
    requires DiskOk(doc, p.disk, past) && Applies(doc, p.disk, e) && Legal(p.disk, past.gone, e) && Cancels(e)
    ensures Quiet(p.disk, Perform(doc, p, e).disk)
    ensures Perform(doc, p, e).ok && !e.Refuse? ==> Done(Perform(doc, p, e).disk.nodes[NodeOf(e)])
  {
    if e.Drop? {
      DropQuiet(doc, p, e);
    } else {
      AgentInPlay(doc, p.disk, past, e.k);
      AnswerQuiet(doc, p, e);
    }
  }

  lemma DropQuiet(doc: Document, p: Progress, e: Edit)
    requires Applies(doc, p.disk, e) && e.Drop? && Leftover(p.disk.nodes[e.i])
    ensures Quiet(p.disk, Perform(doc, p, e).disk)
    ensures Perform(doc, p, e).ok ==> Done(Perform(doc, p, e).disk.nodes[e.i])
  {
  }

  lemma AnswerQuiet(doc: Document, p: Progress, e: Edit)
    requires Applies(doc, p.disk, e) && (e.Confirm? || e.Refuse? || e.Conclude?)
    requires p.disk.nodes[e.k.node].kind == Agent && p.disk.nodes[e.k.node].attempt >= 1 && InPlay(p.disk.nodes[e.k.node])
    ensures Quiet(p.disk, Perform(doc, p, e).disk)
    ensures Perform(doc, p, e).ok && !e.Refuse? ==> Done(Perform(doc, p, e).disk.nodes[e.k.node])
  {
  }

  lemma QuietTwice(d: Disk, e: Disk, f: Disk)
    requires Quiet(d, e) && Quiet(e, f)
    ensures Quiet(d, f)
  {
  }

  lemma {:induction false} EditsQuiet(doc: Document, p: Progress, past: Past, es: seq<Edit>)
    requires DiskOk(doc, p.disk, past) && p.disk.run.phase != RunCompleted
    requires AllApply(doc, p.disk, es) && AllLegal(p.disk, past.gone, es) && Apart(es)
    requires forall i :: 0 <= i < |es| ==> Cancels(es[i])
    ensures Quiet(p.disk, PerformAll(doc, p, es).disk)
    ensures PerformAll(doc, p, es).ok ==> forall i :: 0 <= i < |es| && !es[i].Refuse? ==> Done(PerformAll(doc, p, es).disk.nodes[NodeOf(es[i])])
    decreases |es|
  {
    hide DiskOk, Perform, Legal;
    if es != [] {
      var p1, rest := Perform(doc, p, es[0]), es[1..];
      EditKeeps(doc, p, past, es[0]);
      EditQuiet(doc, p, past, es[0]);
      RestLegal(doc, p, past, es);
      assert forall i :: 0 <= i < |rest| ==> rest[i] == es[i + 1];
      if !p1.ok { FaultsStay(doc, p1, rest); }
      EditsQuiet(doc, p1, past, rest);
      EditsKeep(doc, p1, past, rest);
      var q := PerformAll(doc, p1, rest);
      QuietTwice(p.disk, p1.disk, q.disk);
      assert !Touched(rest, NodeOf(es[0]));
    }
  }

  lemma {:induction false} LeftoversExactly(nodes: seq<Node>)
    ensures forall i :: i in Leftovers(nodes) <==> 0 <= i < |nodes| && Leftover(nodes[i])
    ensures forall i, j :: 0 <= i < j < |Leftovers(nodes)| ==> Leftovers(nodes)[i] != Leftovers(nodes)[j]
  {
    if nodes != [] {
      var n := |nodes| - 1;
      LeftoversExactly(nodes[..n]);
      var before := Leftovers(nodes[..n]);
      forall j | 0 <= j < |before| ensures before[j] < n { assert before[j] in before; }
      forall i ensures i in Leftovers(nodes) <==> 0 <= i < |nodes| && Leftover(nodes[i]) {
        if 0 <= i < n { assert nodes[..n][i] == nodes[i]; }
        assert i in before <==> 0 <= i < n && Leftover(nodes[..n][i]);
      }
    }
  }

  lemma CancelEditsLegal(sys: System, s: State)
    requires Inv(sys, s) && s.canceller.Polling? && AllApply(sys.doc, s.disk, CancelEdits(s.canceller))
    ensures
      var es := CancelEdits(s.canceller);
      AllLegal(s.disk, s.past.gone, es) && Apart(es) && forall i :: 0 <= i < |es| ==> Cancels(es[i])
  {
    hide DiskOk, FlightOk;
    var c := s.canceller;
    forall i | 0 <= i < |c.targets| ensures Legal(s.disk, s.past.gone, CancelEdits(c)[i]) { assert c.targets[i] in c.targets; }
  }

  /** With every target confirmed, what is left has never started, or waits for a decision,
      or is active and no target. */
  lemma AfterConfirming(sys: System, s: State, writes: nat, i: NodeId)
    requires Inv(sys, s) && s.canceller.Polling? && s.disk.run.phase != RunCompleted
    requires AllConfirmed(s.canceller) && AllApply(sys.doc, s.disk, CancelEdits(s.canceller))
    requires i < |s.disk.nodes| && PerformAll(sys.doc, Fresh(s, writes), CancelEdits(s.canceller)).ok
    ensures
      var n := PerformAll(sys.doc, Fresh(s, writes), CancelEdits(s.canceller)).disk.nodes[i];
      if Active(s.disk.nodes[i]) && Key(i, s.disk.nodes[i].attempt) !in s.canceller.targets then n == s.disk.nodes[i] else Done(n) || Leftover(n)
  {
    hide DiskOk, FlightOk, PerformAll, Legal;
    var es, targets := CancelEdits(s.canceller), s.canceller.targets;
    CancelEditsLegal(sys, s);
    EditsKeep(sys.doc, Fresh(s, writes), s.past, es);
    EditsQuiet(sys.doc, Fresh(s, writes), s.past, es);
    var k := Key(i, s.disk.nodes[i].attempt);
    if k in targets {
      var j :| 0 <= j < |targets| && targets[j] == k;
      assert es[j] == Confirm(k);
    } else {
      forall j | 0 <= j < |es| ensures NodeOf(es[j]) != i { assert targets[j] in targets; }
      assert !Touched(es, i);
      if !Active(s.disk.nodes[i]) { InactiveNode(sys, s.disk, s.past, i); }
    }
  }

  lemma InactiveNode(sys: System, d: Disk, past: Past, i: NodeId)
    requires DiskOk(sys.doc, d, past) && i < |d.nodes| && !Active(d.nodes[i])
    ensures Done(d.nodes[i]) || Leftover(d.nodes[i])
  {
    assert NodeSound(d.nodes[i]);
  }

  lemma DropsLegal(doc: Document, d: Disk, gone: set<Key>)
    requires |d.nodes| == |doc.nodes|
    ensures
      var es := Drops(Leftovers(d.nodes), WorkflowCancelled);
      AllApply(doc, d, es) && AllLegal(d, gone, es) && Apart(es) && forall i :: 0 <= i < |es| ==> Cancels(es[i])
  {
    LeftoversExactly(d.nodes);
    var ids := Leftovers(d.nodes);
    assert forall j :: 0 <= j < |ids| ==> ids[j] in ids;
  }

  /** Dropping what is left leaves it done, and every other node as it was. */
  lemma AfterDropping(doc: Document, p: Progress, past: Past, i: NodeId)
    requires DiskOk(doc, p.disk, past) && p.disk.run.phase != RunCompleted
    requires AllApply(doc, p.disk, Drops(Leftovers(p.disk.nodes), WorkflowCancelled)) && i < |p.disk.nodes|
    ensures
      var q := PerformAll(doc, p, Drops(Leftovers(p.disk.nodes), WorkflowCancelled));
      if Leftover(p.disk.nodes[i]) then q.ok ==> Done(q.disk.nodes[i]) else q.disk.nodes[i] == p.disk.nodes[i]
  {
    hide DiskOk, PerformAll, Legal;
    var ids := Leftovers(p.disk.nodes);
    var es := Drops(ids, WorkflowCancelled);
    LeftoversExactly(p.disk.nodes);
    DropsLegal(doc, p.disk, past.gone);
    EditsKeep(doc, p, past, es);
    EditsQuiet(doc, p, past, es);
    if Leftover(p.disk.nodes[i]) {
      assert i in ids;
      var j :| 0 <= j < |ids| && ids[j] == i;
      assert NodeOf(es[j]) == i;
    } else {
      forall j | 0 <= j < |es| ensures NodeOf(es[j]) != i { assert ids[j] in ids; }
      assert !Touched(es, i);
    }
  }

  lemma CancelledRunOk(doc: Document, d: Disk, past: Past, run: Run)
    requires DiskOk(doc, d, past) && run.phase == RunCompleted && run.conclusion == Cancelled
    ensures DiskOk(doc, d.(run := run), past)
  {
  }

  lemma RefusedWritesKeep(doc: Document, p: Progress, past: Past, run: Run)
    requires DiskOk(doc, p.disk, past) && p.disk.run.cancelRequested
    requires run.cancelRequested && run.phase == RunWaiting && run.conclusion == NoConclusion
    ensures DiskOk(doc, WriteRun(p, run).disk, past) && Quiet(p.disk, WriteRun(p, run).disk)
  {
    RunWriteKeeps(doc, p.disk, past, run, p.disk.(run := run));
  }

  /** Dropping what is left and completing the run. */
  lemma ConfirmedWritesKeep(doc: Document, p: Progress, past: Past, run: Run)
    requires DiskOk(doc, p.disk, past) && p.disk.run.phase != RunCompleted && p.disk.run.cancelRequested
    requires run.cancelRequested && run.phase == RunCompleted && run.conclusion == Cancelled
    requires AllApply(doc, p.disk, Drops(Leftovers(p.disk.nodes), WorkflowCancelled))
    ensures
      var q := WriteRun(PerformAll(doc, p, Drops(Leftovers(p.disk.nodes), WorkflowCancelled)), run);
      && DiskOk(doc, q.disk, past) && Quiet(p.disk, q.disk) && (q.ok <==> q.disk.run.phase == RunCompleted) && (q.ok ==> p.ok)
      && forall i :: 0 <= i < |p.disk.nodes| ==>
           if Leftover(p.disk.nodes[i]) then q.ok ==> Done(q.disk.nodes[i]) else q.disk.nodes[i] == p.disk.nodes[i]
  {
    hide DiskOk, PerformAll, Legal, AllApply, Leftovers, Leftover, Done;
    DiskNodes(doc, p.disk, past);
    DropsLegal(doc, p.disk, past.gone);
    var drops := Drops(Leftovers(p.disk.nodes), WorkflowCancelled);
    var q := PerformAll(doc, p, drops);
    EditsKeep(doc, p, past, drops);
    EditsQuiet(doc, p, past, drops);
    forall i | 0 <= i < |p.disk.nodes|
      ensures if Leftover(p.disk.nodes[i]) then q.ok ==> Done(q.disk.nodes[i]) else q.disk.nodes[i] == p.disk.nodes[i]
    {
      AfterDropping(doc, p, past, i);
    }
    if !p.ok { FaultsStay(doc, p, drops); }
    CancelledRunOk(doc, q.disk, past, run);
  }

  /** Wherever the cancellation's writes are cut short, the files stay sound; when none is,
      the run is completed, and every node is done but the active ones that were no target. */
  lemma CancelWritesKeep(sys: System, s: State, writes: nat)
    requires Inv(sys, s) && s.canceller.Polling? && s.disk.run.phase != RunCompleted && AllApply(sys.doc, s.disk, CancelEdits(s.canceller))
    ensures
      var p := CancelWrites(sys, s, writes);
      && DiskOk(sys.doc, p.disk, s.past) && Quiet(s.disk, p.disk)
      && (p.disk.run.phase == RunCompleted <==> p.ok && AllConfirmed(s.canceller)) && (p.disk.run.phase == RunCompleted ==> p.disk.run.conclusion == Cancelled)
      && (p.disk.run.phase == RunCompleted ==> forall i :: 0 <= i < |s.disk.nodes| ==>
            (Done(p.disk.nodes[i]) <==> !(Active(s.disk.nodes[i]) && Key(i, s.disk.nodes[i].attempt) !in s.canceller.targets))
            && (Done(p.disk.nodes[i]) || p.disk.nodes[i] == s.disk.nodes[i]))
  {
    hide DiskOk, FlightOk, PerformAll, Legal, AllApply, Leftovers, Quiet, CancelEdits;
    var es := CancelEdits(s.canceller);
    var p := PerformAll(sys.doc, Fresh(s, writes), es);
    CancelEditsLegal(sys, s);
    EditsKeep(sys.doc, Fresh(s, writes), s.past, es);
    EditsQuiet(sys.doc, Fresh(s, writes), s.past, es);
    DiskNodes(sys.doc, p.disk, s.past);
    var q := CancelWrites(sys, s, writes);
    if !AllConfirmed(s.canceller) {
      var run := p.disk.run.(cancelRequested := true, phase := RunWaiting, conclusion := NoConclusion, reason := CancelFailed);
      RefusedWritesKeep(sys.doc, p, s.past, run);
    } else {
      DropsLegal(sys.doc, p.disk, s.past.gone);
      var run := PerformAll(sys.doc, p, Drops(Leftovers(p.disk.nodes), WorkflowCancelled)).disk.run
        .(cancelRequested := true, phase := RunCompleted, conclusion := Cancelled, reason := UserRequested);
      ConfirmedWritesKeep(sys.doc, p, s.past, run);
      if q.ok {
        forall i | 0 <= i < |s.disk.nodes|
          ensures (Done(q.disk.nodes[i]) <==> !(Active(s.disk.nodes[i]) && Key(i, s.disk.nodes[i].attempt) !in s.canceller.targets))
               && (Done(q.disk.nodes[i]) || q.disk.nodes[i] == s.disk.nodes[i])
        {
          AfterConfirming(sys, s, writes, i);
        }
      }
    }
    QuietTwice(s.disk, p.disk, q.disk);
  }

  lemma QuietFlights(s: State, t: State)
    requires FlightsOk(s) && Quiet(s.disk, t.disk) && t.flights == s.flights && t.stage == s.stage && t.past == s.past
    requires s.disk.run.cancelRequested
    ensures FlightsOk(t)
  {
    forall k | k in t.flights ensures FlightOk(t, k) { assert FlightOk(s, k); }
  }

  /** What is at hand stays at hand while a cancellation is recorded. */
  lemma QuietRecovery(s: State, t: State)
    requires RecoverOk(s) && Quiet(s.disk, t.disk) && t.stage == s.stage
    ensures RecoverOk(t)
  {
  }

  lemma ApplyCancelKeeps(sys: System, s: State, writes: nat)
    requires Inv(sys, s)
    ensures Inv(sys, DoApplyCancel(sys, s, writes))
  {
    hide DiskOk, FlightOk, CancelWrites, AllApply, LeftAtWork;
    var t := DoApplyCancel(sys, s, writes);
    if s.canceller.Polling? && s.disk.run.phase != RunCompleted && AllAnswered(s.canceller) && AllApply(sys.doc, s.disk, CancelEdits(s.canceller)) {
      CancelWritesKeep(sys, s, writes);
      hide FlightsOk, RecoverOk, Quiet;
      QuietFlights(s, t);
      QuietRecovery(s, t);
    } else {
      SameFlights(s, t);
    }
  }

  // ----- a cancellation taken up again -----

  lemma {:induction false} FirstIsAtWork(nodes: seq<Node>, i: nat)
    requires i <= |nodes|
    ensures var first := FirstAtWork(nodes, i);
            && (first.Some? ==> i <= first.value < |nodes| && AtWork(nodes[first.value]) && forall j :: i <= j < first.value ==> !AtWork(nodes[j]))
            && (first.None? ==> forall j :: i <= j < |nodes| ==> !AtWork(nodes[j]))
    decreases |nodes| - i
  {
    if i < |nodes| && !AtWork(nodes[i]) { FirstIsAtWork(nodes, i + 1); }
  }

  /** Only agents are at work, and each has its attempt on disk. */
  lemma AtWorkIsActive(sys: System, s: State, i: NodeId)
    requires DiskOk(sys.doc, s.disk, s.past) && i < |s.disk.nodes|
    ensures AtWork(s.disk.nodes[i]) <==> Active(s.disk.nodes[i])
    ensures AtWork(s.disk.nodes[i]) ==> AtHand(s.disk, Key(i, s.disk.nodes[i].attempt))
  {
    assert NodeSound(s.disk.nodes[i]);
    if Active(s.disk.nodes[i]) { ActiveOnDisk(sys, s, Key(i, s.disk.nodes[i].attempt)); }
  }

  lemma StartRecoveryKeeps(sys: System, s: State, writes: nat)
    requires Inv(sys, s)
    ensures Inv(sys, DoStartRecovery(s, writes))
  {
    hide DiskOk;
    var t := DoStartRecovery(s, writes);
    if t.disk != s.disk { RunWriteKeeps(sys.doc, s.disk, s.past, t.disk.run, t.disk); }
  }

  lemma RecoverMarkKeeps(sys: System, s: State, writes: nat)
    requires Inv(sys, s)
    ensures Inv(sys, DoRecoverMark(s, writes))
  {
    hide DiskOk, FirstAtWork, FlightOk;
    var t := DoRecoverMark(s, writes);
    if s.stage == Recovering(Unmarked) {
      NoFlights(s);
      if t.disk != s.disk { MarkedRunOk(sys.doc, s.disk, s.past, t.disk.run); }
      SameCancel(s, t);
      PickedAtHand(sys, t);
      hide CancelOk, AtHand;
    }
  }

  lemma SameCancel(s: State, t: State)
    requires CancelOk(s) && t.canceller == s.canceller && t.disk.nodes == s.disk.nodes && t.disk.attempts == s.disk.attempts
    requires t.disk.run.cancelRequested == s.disk.run.cancelRequested
    ensures CancelOk(t)
  {
  }

  lemma PickedAtHand(sys: System, t: State)
    requires DiskOk(sys.doc, t.disk, t.past)
    ensures var first := FirstAtWork(t.disk.nodes, 0);
            first.Some? ==> first.value < |t.disk.nodes| && AtHand(t.disk, Key(first.value, t.disk.nodes[first.value].attempt))
  {
    hide DiskOk;
    FirstIsAtWork(t.disk.nodes, 0);
    var first := FirstAtWork(t.disk.nodes, 0);
    if first.Some? { AtWorkIsActive(sys, t, first.value); }
  }

  /** Launches are in flight only while the controller launches. */
  lemma NoFlights(s: State)
    requires FlightsOk(s) && s.stage != Launching
    ensures s.flights == map[]
  {
    forall k: Key ensures k !in s.flights { NoFlight(s, k); }
  }

  lemma NoFlight(s: State, k: Key)
    requires FlightsOk(s) && s.stage != Launching
    ensures k !in s.flights
  {
  }

  /** Moving on within recovery, with the same attempt in hand or none. */
  lemma RecoveryMovesOn(sys: System, s: State, t: State)
    requires Inv(sys, s) && s.stage.Recovering? && t.stage.Recovering? && t == s.(stage := t.stage, confirmed := t.confirmed)
    requires InHand(t.stage) == InHand(s.stage) || InHand(t.stage) == None
    ensures Inv(sys, t)
  {
    NoFlights(s);
    hide DiskOk, AtHand, ApartKeys;
  }

  lemma RecoverStepKeeps(sys: System, s: State, step: Step)
    requires Inv(sys, s) && (step.RecoverLook? || step.RecoverGiveUp? || step.RecoverAsk?)
    ensures Inv(sys, Apply(sys, s, step))
  {
    hide Inv;
    if Apply(sys, s, step) != s { RecoveryMovesOn(sys, s, Apply(sys, s, step)); }
  }

  /** What recovery leaves as it was: no node becomes active, and no cancelled attempt is
      anything else afterwards. */
  ghost predicate Subdued(d: Disk, e: Disk)
  {
    && |e.nodes| == |d.nodes| && e.attempts.Keys == d.attempts.Keys
    && (forall i :: 0 <= i < |d.nodes| && Active(e.nodes[i]) ==> Active(d.nodes[i]))
    && (forall k :: k in d.attempts && AlreadyCancelled(d.attempts[k]) ==> AlreadyCancelled(e.attempts[k]))
  }

  lemma DropSubdues(doc: Document, p: Progress, e: Edit)
    requires Applies(doc, p.disk, e) && e.Drop?
    ensures Subdued(p.disk, Perform(doc, p, e).disk) && Perform(doc, p, e).disk.attempts == p.disk.attempts
  {
  }

  lemma ConcludeSubdues(doc: Document, p: Progress, e: Edit)
    requires Applies(doc, p.disk, e) && e.Conclude?
    ensures Subdued(p.disk, Perform(doc, p, e).disk)
  {
  }

  lemma {:induction false} DropsSubdue(doc: Document, p: Progress, es: seq<Edit>)
    requires AllApply(doc, p.disk, es) && forall i :: 0 <= i < |es| ==> es[i].Drop?
    ensures Subdued(p.disk, PerformAll(doc, p, es).disk) && PerformAll(doc, p, es).disk.attempts == p.disk.attempts
    decreases |es|
  {
    if es != [] {
      DropSubdues(doc, p, es[0]);
      assert forall i :: 0 <= i < |es| - 1 ==> es[1..][i] == es[i + 1];
      hide Perform;
      DropsSubdue(doc, Perform(doc, p, es[0]), es[1..]);
    }
  }

  /** Wherever recovery's last writes are cut short the files stay sound; when none is, the
      run is completed, and every node is done but the active ones that it did not settle. */
  lemma RecoveryWritesKeep(sys: System, s: State, first: Option<Key>, writes: nat)
    requires DiskOk(sys.doc, s.disk, s.past) && s.disk.run.phase != RunCompleted && s.disk.run.cancelRequested
    requires first.Some? ==> AtHand(s.disk, first.value)
    ensures |s.disk.nodes| == |sys.doc.nodes| && (first.Some? ==> Applies(sys.doc, s.disk, Conclude(first.value)))
    ensures
      var p := RecoveryWrites(sys, s, first, writes);
      && DiskOk(sys.doc, p.disk, s.past) && Quiet(s.disk, p.disk) && Subdued(s.disk, p.disk)
      && (p.disk.run.phase == RunCompleted <==> p.ok) && (p.ok ==> p.disk.run.conclusion == Cancelled)
      && (p.ok ==> forall i :: 0 <= i < |s.disk.nodes| ==>
            (Done(p.disk.nodes[i]) <==> !(Active(s.disk.nodes[i]) && Key(i, s.disk.nodes[i].attempt) !in KeysOf(first)))
            && (Done(p.disk.nodes[i]) || p.disk.nodes[i] == s.disk.nodes[i]))
  {
    hide FlightOk, Legal, Leftovers, Perform, PerformAll, AttemptsOk, StartedOk, BudgetOk, NodesOk, RunOk;
    DiskNodes(sys.doc, s.disk, s.past);
    DiskFits(sys.doc, s.disk, s.past);
    hide DiskOk;
    var p := Fresh(s, writes);
    if first.Some? {
      ConcludeLegal(sys.doc, s.disk, s.past, first.value);
      p := Perform(sys.doc, Fresh(s, writes), Conclude(first.value));
      EditKeeps(sys.doc, Fresh(s, writes), s.past, Conclude(first.value));
      EditQuiet(sys.doc, Fresh(s, writes), s.past, Conclude(first.value));
      ConcludeSubdues(sys.doc, Fresh(s, writes), Conclude(first.value));
    }
    var drops := Drops(Leftovers(p.disk.nodes), WorkflowCancelled);
    DropsLegal(sys.doc, p.disk, s.past.gone);
    DropsSubdue(sys.doc, p, drops);
    var q := RecoveryWrites(sys, s, first, writes);
    var run := PerformAll(sys.doc, p, drops).disk.run.(cancelRequested := true, phase := RunCompleted, conclusion := Cancelled, reason := UserRequested);
    ConfirmedWritesKeep(sys.doc, p, s.past, run);
    QuietTwice(s.disk, p.disk, q.disk);
    if q.ok {
      forall i | 0 <= i < |s.disk.nodes|
        ensures (Done(q.disk.nodes[i]) <==> !(Active(s.disk.nodes[i]) && Key(i, s.disk.nodes[i].attempt) !in KeysOf(first)))
             && (Done(q.disk.nodes[i]) || q.disk.nodes[i] == s.disk.nodes[i])
      {
        if !Active(s.disk.nodes[i]) { InactiveNode(sys, s.disk, s.past, i); }
      }
    }
  }

  lemma DiskFits(doc: Document, d: Disk, past: Past)
    requires DiskOk(doc, d, past)
    ensures |d.nodes| == |doc.nodes|
  {
  }

  lemma ConcludeLegal(doc: Document, d: Disk, past: Past, k: Key)
    requires |d.nodes| == |doc.nodes| && AtHand(d, k)
    ensures Applies(doc, d, Conclude(k)) && Legal(d, past.gone, Conclude(k))
  {
  }

  lemma RecoverEndKeeps(sys: System, s: State, writes: nat)
    requires Inv(sys, s)
    ensures Inv(sys, DoRecoverEnd(sys, s, writes))
  {
    hide DiskOk, RecoveryWrites, FlightOk, LeftAtWork;
    var t := DoRecoverEnd(sys, s, writes);
    HaltKeeps(sys, s);
    if s.stage.Recovering? {
      if s.stage.progress.Refusing? {
        if t.disk != s.disk { RunWriteKeeps(sys.doc, s.disk, s.past, t.disk.run, t.disk); }
      } else if s.stage.progress.Ending? && s.disk.run.phase != RunCompleted {
        RecoveryWritesKeep(sys, s, s.stage.progress.first, writes);
        StillPolling(s, t);
      }
    }
  }

  lemma StillPolling(s: State, t: State)
    requires CancelOk(s) && t.canceller == s.canceller && Quiet(s.disk, t.disk) && Subdued(s.disk, t.disk)
    ensures CancelOk(t)
  {
  }

  // ----- a person's action -----

  lemma ResetNode(nodes: seq<Node>, doc: Document, i: NodeId, j: NodeId)
    requires Fits(doc, nodes) && j < |nodes|
    ensures var n := ResetBelow(doc, nodes, i)[j];
            n == nodes[j] || (nodes[j].phase == Skipped && n.phase == Pending && n.kind == nodes[j].kind && n.attempt == nodes[j].attempt && n.conclusion == NoConclusion)
  {
  }

  /** The first n nodes are reset, the others are as they were, and nothing else changes; a
      fault leaves some of the first n as they were. */
  lemma {:induction false} ResetWritesNodes(doc: Document, p: Progress, i: NodeId, n: nat)
    requires Fits(doc, p.disk.nodes) && n <= |p.disk.nodes|
    ensures
      var q := ResetWrites(doc, p, i, n);
      && q.disk == p.disk.(nodes := q.disk.nodes) && (!p.ok ==> q == p)
      && (forall j :: 0 <= j < |p.disk.nodes| ==> q.disk.nodes[j] == p.disk.nodes[j] || (j < n && q.disk.nodes[j] == ResetBelow(doc, p.disk.nodes, i)[j]))
      && (q.ok ==> forall j :: 0 <= j < n ==> q.disk.nodes[j] == ResetBelow(doc, p.disk.nodes, i)[j])
  {
    hide DependsOn;
    if n > 0 { ResetWritesNodes(doc, p, i, n - 1); }
  }

  /** However far an action comes, each node is as it was or as the action makes it. */
  lemma ActWritesNodes(doc: Document, p: Progress, action: Action)
    requires Fits(doc, p.disk.nodes) && Takes(p.disk.nodes, action) && p.ok
    ensures
      var q, acted := ActWrites(doc, p, action), Acted(doc, p.disk.nodes, action);
      && q.disk == p.disk.(nodes := q.disk.nodes) && |q.disk.nodes| == |p.disk.nodes|
      && (forall j :: 0 <= j < |p.disk.nodes| ==> q.disk.nodes[j] == p.disk.nodes[j] || q.disk.nodes[j] == acted[j])
      && (q.ok ==> q.disk.nodes == acted) && (p.left > 0 ==> q.disk.nodes[action.i] == acted[action.i]) && (p.left == 0 ==> q.disk == p.disk && !q.ok)
  {
    var first := WriteNode(p, action.i, Target(p.disk.nodes[action.i], action));
    var q := ActWrites(doc, p, action);
    if !action.Decide? {
      var n := |p.disk.nodes|;
      ResetWritesNodes(doc, first, action.i, n);
      TargetNotReset(doc, p.disk.nodes, action);
      hide Takes, Target, ResetWrites, DependsOn;
      if first.ok {
        forall j | 0 <= j < n ensures j != action.i ==> ResetBelow(doc, first.disk.nodes, action.i)[j] == ResetBelow(doc, p.disk.nodes, action.i)[j] {}
      }
    }
  }

  lemma TargetNotReset(doc: Document, nodes: seq<Node>, action: Action)
    requires Fits(doc, nodes) && Takes(nodes, action) && !action.Decide?
    ensures
      var after := nodes[action.i := Target(nodes[action.i], action)];
      ResetBelow(doc, after, action.i)[action.i] == after[action.i]
  {
  }

  /** Replacing nodes without raising an attempt keeps the files sound. */
  lemma NodesKeep(doc: Document, d: Disk, past: Past, nodes: seq<Node>, accepted: seq<nat>, run: Run, e: Disk)
    requires DiskOk(doc, d, past) && |nodes| == |d.nodes| && |accepted| == |d.nodes|
    requires e == d.(nodes := nodes, run := run) && (run == d.run || (run.phase == RunRunning && run.conclusion == NoConclusion))
    requires forall i :: 0 <= i < |nodes| ==> NodeSound(nodes[i]) && nodes[i].kind == d.nodes[i].kind && nodes[i].attempt == d.nodes[i].attempt
    requires forall i :: 0 <= i < |nodes| ==> nodes[i].attempt + Credit(nodes[i]) <= 1 + accepted[i]
    requires forall i :: 0 <= i < |nodes| ==> nodes[i] == d.nodes[i] || !InPlay(nodes[i])
    ensures DiskOk(doc, e, past.(accepted := accepted))
  {
    forall k | k in e.attempts ensures AttemptOk(e.nodes, past.gone, k, e.attempts[k]) {
      assert AttemptOk(d.nodes, past.gone, k, d.attempts[k]);
    }
  }

  /** What an action makes of a node: its target starts over or is decided, a skipped node
      may start over, and every other node stays. */
  lemma ActedNode(doc: Document, nodes: seq<Node>, action: Action, j: NodeId)
    requires Fits(doc, nodes) && Takes(nodes, action) && j < |nodes| && NodeSound(nodes[j])
    ensures
      var (m, n) := (nodes[j], Acted(doc, nodes, action)[j]);
      && NodeSound(n) && n.kind == m.kind && n.attempt == m.attempt && (n == m || (!InPlay(n) && m.conclusion != Cancelled))
      && Credit(n) <= Credit(m) + if j == action.i && !action.Decide? then 1 else 0
  {
    ResetNode(nodes, doc, action.i, j);
    hide ResetBelow, DependsOn;
  }

  lemma ActNode(sys: System, s: State, action: Action, writes: nat, j: NodeId)
    requires DiskOk(sys.doc, s.disk, s.past) && Allowed(s, action) && !AllowedAgain(s, action) && j < |s.disk.nodes|
    ensures
      var t := DoAct(sys, s, action, writes);
      |t.disk.nodes| == |s.disk.nodes| && |t.past.accepted| == |s.disk.nodes| && var (m, n) := (s.disk.nodes[j], t.disk.nodes[j]);
      && NodeSound(n) && n.kind == m.kind && n.attempt == m.attempt && n.attempt + Credit(n) <= 1 + t.past.accepted[j]
      && (n == m || (!InPlay(n) && m.conclusion != Cancelled))
  {
    ActWritesNodes(sys.doc, Fresh(s, writes), action);
    ActedNode(sys.doc, s.disk.nodes, action, j);
    hide AttemptOk, AttemptsOk, StartedOk, ActWrites, Takes, Acted, NodeSound, Credit;
    var t := DoAct(sys, s, action, writes);
    assert t.disk.nodes == ActWrites(sys.doc, Fresh(s, writes), action).disk.nodes;
  }

  lemma ActDisk(sys: System, s: State, action: Action, writes: nat)
    requires DiskOk(sys.doc, s.disk, s.past) && Allowed(s, action) && !AllowedAgain(s, action)
    ensures var t := DoAct(sys, s, action, writes); DiskOk(sys.doc, t.disk, t.past)
  {
    ActWritesNodes(sys.doc, Fresh(s, writes), action);
    var t := DoAct(sys, s, action, writes);
    assert t.disk == s.disk.(nodes := t.disk.nodes, run := t.disk.run) && t.past == s.past.(accepted := t.past.accepted) by { hide ActWrites, Allowed; }
    assert t.disk.run == s.disk.run || t.disk.run == Reopened(s.disk.run) by { hide ActWrites, Allowed; }
    ActNode(sys, s, action, writes, action.i);
    forall j | 0 <= j < |s.disk.nodes|
      ensures
        var (m, n) := (s.disk.nodes[j], t.disk.nodes[j]);
        && NodeSound(n) && n.kind == m.kind && n.attempt == m.attempt && n.attempt + Credit(n) <= 1 + t.past.accepted[j]
        && (n == m || (!InPlay(n) && m.conclusion != Cancelled))
    {
      ActNode(sys, s, action, writes, j);
    }
    hide DiskOk, DoAct, Takes;
    NodesKeep(sys.doc, s.disk, s.past, t.disk.nodes, t.past.accepted, t.disk.run, t.disk);
  }

  /** Writing the run as running again, as a repeated decision does. */
  lemma ReopenKeeps(sys: System, s: State, writes: nat)
    requires DiskOk(sys.doc, s.disk, s.past)
    ensures DiskOk(sys.doc, WriteRun(Fresh(s, writes), Reopened(s.disk.run)).disk, s.past)
  {
  }

  lemma ActKeeps(sys: System, s: State, action: Action, writes: nat)
    requires Inv(sys, s)
    ensures Inv(sys, DoAct(sys, s, action, writes))
  {
    hide DiskOk, ActWrites, Takes;
    if AllowedAgain(s, action) {
      ReopenKeeps(sys, s, writes);
    } else if Allowed(s, action) {
      ActDisk(sys, s, action, writes);
    }
  }

  /** Every step keeps the invariant. */
  lemma StepKeeps(sys: System, s: State, step: Step)
    requires Inv(sys, s)
    ensures Inv(sys, Apply(sys, s, step))
  {
    hide Inv, DoStartControl, DoFailControl, DoBeginReconcile, DoObserve, DoSettle, DoEndReconcile, DoSchedule, DoBegin, DoLoseDriver, DoCallStart,
      DoLand, DoResolve, DoEndLaunch, DoMarkCancel, DoPollTarget, DoGiveUp, DoCancelBackend, DoApplyCancel, DoStartRecovery, DoRecoverMark,
      DoRecoverEnd, DoAct, DoCrash;
    match step
    case StartControl(rewrite, writes) => StartControlKeeps(sys, s, rewrite, writes);
    case StopControl => HaltKeeps(sys, s);
    case FailControl(paused, writes) => FailControlKeeps(sys, s, paused, writes);
    case BeginReconcile => BeginReconcileKeeps(sys, s);
    case Observe(k, seen) => ObserveKeeps(sys, s, k, seen);
    case Settle(writes) => SettleKeeps(sys, s, writes);
    case EndReconcile => EndReconcileKeeps(sys, s);
    case Schedule(limit, writes) => ScheduleKeeps(sys, s, limit, writes);
    case Begin(k, writes) => BeginKeeps(sys, s, k, writes);
    case LoseDriver(k) => LoseDriverKeeps(sys, s, k);
    case CallStart(k, handle, failed) => CallStartKeeps(sys, s, k, handle, failed);
    case Land(k, writes) => LandKeeps(sys, s, k, writes);
    case Resolve(k, writes) => ResolveKeeps(sys, s, k, writes);
    case EndLaunch => EndLaunchKeeps(sys, s);
    case MarkCancel(writes) => MarkCancelKeeps(sys, s, writes);
    case PollTarget(k, expired) => PollTargetKeeps(sys, s, k, expired);
    case GiveUp(k) => GiveUpKeeps(sys, s, k);
    case CancelBackend(k, confirmed) => CancelBackendKeeps(sys, s, k, confirmed);
    case ApplyCancel(writes) => ApplyCancelKeeps(sys, s, writes);
    case StartRecovery(writes) => StartRecoveryKeeps(sys, s, writes);
    case RecoverMark(writes) => RecoverMarkKeeps(sys, s, writes);
    case RecoverEnd(writes) => RecoverEndKeeps(sys, s, writes);
    case RecoverLook(_) => RecoverStepKeeps(sys, s, step);
    case RecoverGiveUp => RecoverStepKeeps(sys, s, step);
    case RecoverAsk(_) => RecoverStepKeeps(sys, s, step);
    case Act(action, writes) => ActKeeps(sys, s, action, writes);
    case Crash => CrashKeeps(sys, s);
  }

  lemma InitialInv(sys: System)
    requires Ordered(sys.doc)
    ensures Inv(sys, Initial(sys))
  {
  }

  /** The invariant holds after any steps, in any order, with any faults and crashes. */
  lemma {:induction false} ReachedInv(sys: System, steps: seq<Step>)
    requires Ordered(sys.doc)
    ensures Inv(sys, Reached(sys, Initial(sys), steps))
  {
    if steps == [] {
      InitialInv(sys);
    } else {
      ReachedInv(sys, steps[..|steps| - 1]);
      StepKeeps(sys, Reached(sys, Initial(sys), steps[..|steps| - 1]), steps[|steps| - 1]);
    }
  }
}
