/** A person's action as durable writes: a journal around a write-ahead plan, replayed
    after a crash. Any write may be the last one before a crash. */
module ActionReplay {
  import opened Workflow
  import opened Scheduler
  import opened Topology
  import opened RunMachine
  import Lease

  const MAX_RECEIPTS := 256

  type ActionId = nat

  /** What a request asks for; it stands for its own hash. */
  datatype Payload = Payload(expected: nat, action: Action)

  datatype Request = Request(id: ActionId, payload: Payload)

  datatype Receipt = Receipt(payload: Payload, version: nat, phase: RunPhase, conclusion: Conclusion)

  datatype RunFile = RunFile(run: Run, version: nat, receipts: map<ActionId, Receipt>)

  datatype Mutation = Mutation(i: NodeId, before: Node, after: Node)

  datatype Intent = Intent(payload: Payload, applying: bool, applied: nat, mutations: seq<Mutation>)

  datatype Fault = VersionConflict | NotApplicable | Unacknowledged | OtherPending | BoundElsewhere | NoJournal | Unreplayable | LeaseHeld

  /** What a journal answers, however often it is asked. */
  datatype Reply = Done(version: nat, phase: RunPhase, conclusion: Conclusion) | Declined(fault: Fault)

  datatype JournalState = Opened | Mutated(reply: Reply) | Committed(reply: Reply)

  datatype Journal = Journal(payload: Payload, state: JournalState)

  datatype Files = Files(journals: map<ActionId, Journal>, intents: map<ActionId, Intent>, nodes: seq<Node>, run: RunFile)

  datatype Status = Going | Crashed | Halted(fault: Fault)

  /** A section at work: its files, and how many more writes happen before the crash. */
  datatype Work = Work(files: Files, left: nat, status: Status)

  datatype Response = Lost | Refused(fault: Fault) | Replied(reply: Reply)

  // ----- durable writes -----

  function Write(w: Work, files: Files): Work
  {
    if w.status != Going then w
    else if w.left == 0 then w.(status := Crashed)
    else Work(files, w.left - 1, Going)
  }

  function WriteJournal(w: Work, id: ActionId, j: Journal): Work { Write(w, w.files.(journals := w.files.journals[id := j])) }

  function WriteIntent(w: Work, id: ActionId, intent: Intent): Work { Write(w, w.files.(intents := w.files.intents[id := intent])) }

  function RemoveIntent(w: Work, id: ActionId): Work { Write(w, w.files.(intents := w.files.intents - {id})) }

  function ReplaceNode(w: Work, i: NodeId, n: Node): Work
    requires i < |w.files.nodes|
  {
    Write(w, w.files.(nodes := w.files.nodes[i := n]))
  }

  // ----- receipts -----

  predicate Older(receipts: map<ActionId, Receipt>, a: ActionId, b: ActionId)
    requires a in receipts && b in receipts
  {
    receipts[a].version < receipts[b].version || (receipts[a].version == receipts[b].version && a < b)
  }

  ghost predicate IsOldest(receipts: map<ActionId, Receipt>, id: ActionId)
  {
    id in receipts && forall other :: other in receipts && other != id ==> Older(receipts, id, other)
  }

  lemma {:induction false} OldestExists(receipts: map<ActionId, Receipt>)
    requires receipts.Keys != {}
    ensures exists id :: IsOldest(receipts, id)
    decreases |receipts.Keys|
  {
    var id :| id in receipts.Keys;
    var rest := receipts - {id};
    if rest.Keys == {} {
      assert receipts.Keys - {id} == rest.Keys;
      assert IsOldest(receipts, id);
    } else {
      assert rest.Keys < receipts.Keys;
      SmallerKeys(receipts, id);
      OldestExists(rest);
      var oldest :| IsOldest(rest, oldest);
      var first := if Older(receipts, id, oldest) then id else oldest;
      forall other | other in receipts && other != first ensures Older(receipts, first, other) {
        if other != id && other != oldest { assert other in rest && Older(rest, oldest, other); }
      }
      assert IsOldest(receipts, first);
    }
  }

  lemma SmallerKeys(receipts: map<ActionId, Receipt>, id: ActionId)
    requires id in receipts
    ensures |(receipts - {id}).Keys| < |receipts.Keys|
  {
    assert (receipts - {id}).Keys == receipts.Keys - {id};
  }

  /** Drops the oldest receipts until no more than the maximum are left. */
  ghost function Evicted(receipts: map<ActionId, Receipt>): map<ActionId, Receipt>
    decreases |receipts.Keys|
  {
    if |receipts.Keys| <= MAX_RECEIPTS then receipts
    else
      OldestExists(receipts);
      var oldest :| IsOldest(receipts, oldest);
      SmallerKeys(receipts, oldest);
      Evicted(receipts - {oldest})
  }

  /** The newest receipt is never dropped, and no receipt is changed. */
  lemma {:induction false} NewestSurvives(receipts: map<ActionId, Receipt>, id: ActionId)
    requires id in receipts && forall other :: other in receipts && other != id ==> receipts[other].version < receipts[id].version
    ensures id in Evicted(receipts)
    ensures forall other :: other in Evicted(receipts) ==> other in receipts && Evicted(receipts)[other] == receipts[other]
    ensures |Evicted(receipts).Keys| <= MAX_RECEIPTS
    decreases |receipts.Keys|
  {
    if |receipts.Keys| > MAX_RECEIPTS {
      OldestExists(receipts);
      var oldest :| IsOldest(receipts, oldest) && Evicted(receipts) == Evicted(receipts - {oldest});
      SmallerKeys(receipts, oldest);
      assert receipts.Keys - {id} != {} by { assert |receipts.Keys - {id}| == |receipts.Keys| - 1; }
      var other :| other in receipts.Keys - {id};
      assert oldest != id;
      NewestSurvives(receipts - {oldest}, id);
    }
  }

  // ----- faults -----

  /** Only the acknowledgement of a possible duplicate is missing. */
  predicate NeedsAcknowledgement(nodes: seq<Node>, action: Action)
  {
    action.Retry? && !Takes(nodes, action) && Takes(nodes, action.(acknowledged := true))
  }

  /** Whether a fault is kept as the journal's answer. A missing acknowledgement and a lease
      that is held are answered as internal errors, and the journal stays open. */
  predicate Terminal(fault: Fault) { fault != Unacknowledged && fault != LeaseHeld }

  // ----- the run's lease -----

  const LEASE_TTL := 15000

  const LEASE_WAIT := 1000

  /** One try for the lease: the record it finds, and the time it sampled. */
  datatype Try = Try(found: Option<Lease.Record>, sampled: int)

  /** The lease is tried for again and again within the wait; one try that succeeds is enough. */
  predicate Granted(tries: seq<Try>)
  {
    exists n :: 0 <= n < |tries| && Lease.GivesWay(tries[n].found, tries[n].sampled, false, Lease.Unknown)
  }

  // ----- the plan -----

  /** The skipped nodes before n that an action resets, in order. */
  ghost function Resets(doc: Document, nodes: seq<Node>, i: NodeId, n: nat): seq<Mutation>
    requires Fits(doc, nodes) && n <= |nodes|
  {
    if n == 0 then []
    else
      Resets(doc, nodes, i, n - 1)
        + if DependsOn(doc, n - 1, i) && nodes[n - 1].phase == Skipped then [Mutation(n - 1, nodes[n - 1], Reset(nodes[n - 1]))] else []
  }

  /** Every node an action changes, as it is and as it will be; the target comes first. */
  ghost function PlanAction(doc: Document, nodes: seq<Node>, action: Action): seq<Mutation>
    requires Fits(doc, nodes) && Takes(nodes, action)
  {
    [Mutation(action.i, nodes[action.i], Target(nodes[action.i], action))]
      + if action.Decide? then [] else Resets(doc, nodes, action.i, |nodes|)
  }

  // ----- applying a plan -----

  /** Applies the mutations from idx on: a node is written only if it is not yet as
      planned, and the count of applied mutations follows each one. */
  function ApplyFrom(w: Work, id: ActionId, intent: Intent, idx: nat): Work
    requires idx <= |intent.mutations|
    decreases |intent.mutations| - idx
  {
    if w.status != Going || idx == |intent.mutations| then w
    else if idx < intent.applied then ApplyFrom(w, id, intent, idx + 1)
    else
      var m := intent.mutations[idx];
      if m.i >= |w.files.nodes| || (w.files.nodes[m.i] != m.after && w.files.nodes[m.i] != m.before) then w.(status := Halted(Unreplayable))
      else
        var w1 := if w.files.nodes[m.i] == m.after then w else ReplaceNode(w, m.i, m.after);
        var next := intent.(applied := idx + 1);
        ApplyFrom(WriteIntent(w1, id, next), id, next, idx + 1)
  }

  /** Accepts the action: one version more, and a receipt that binds it. */
  ghost function Accepted(run: RunFile, id: ActionId, payload: Payload): RunFile
  {
    RunFile(Reopened(run.run), run.version + 1, Evicted(run.receipts[id := Receipt(payload, run.version + 1, RunRunning, NoConclusion)]))
  }

  ghost function Finalize(w: Work, id: ActionId, payload: Payload): Work
  {
    RemoveIntent(Write(w, w.files.(run := Accepted(w.files.run, id, payload))), id)
  }

  ghost function ApplyIntent(w: Work, id: ActionId, intent: Intent): Work
  {
    Finalize(ApplyFrom(w, id, intent, 0), id, intent.payload)
  }

  /** The engine's part, once the run's lease is taken: replays the plan it finds, repeats
      a decision without a plan, or makes a plan. */
  ghost function Resume(doc: Document, w: Work, r: Request, granted: bool): Work
    requires Fits(doc, w.files.nodes)
  {
    var f := w.files;
    if w.status != Going then w
    else if !granted then w.(status := Halted(LeaseHeld))
    else if r.id in f.intents then
      var intent := f.intents[r.id];
      if intent.payload != r.payload || intent.mutations == [] then w.(status := Halted(Unreplayable))
      else if intent.applying then ApplyIntent(w, r.id, intent)
      else
        var applying := intent.(applying := true);
        ApplyIntent(WriteIntent(w, r.id, applying), r.id, applying)
    else if f.run.version != r.payload.expected then w.(status := Halted(VersionConflict))
    else if Repeats(f.nodes, r.payload.action) then
      if f.run.run.phase == RunCompleted then w else Finalize(w, r.id, r.payload)
    else if NeedsAcknowledgement(f.nodes, r.payload.action) then w.(status := Halted(Unacknowledged))
    else if !Takes(f.nodes, r.payload.action) then w.(status := Halted(NotApplicable))
    else if exists other :: other in f.intents && other != r.id then w.(status := Halted(OtherPending))
    else
      var planned := Intent(r.payload, false, 0, PlanAction(doc, f.nodes, r.payload.action));
      var applying := planned.(applying := true);
      ApplyIntent(WriteIntent(WriteIntent(w, r.id, planned), r.id, applying), r.id, applying)
  }

  // ----- the journal around it -----

  /** Writes the answer to the journal, and commits it. */
  function Record(w: Work, r: Request, reply: Reply): (Work, Response)
  {
    var marked := WriteJournal(w, r.id, Journal(r.payload, Mutated(reply)));
    var committed := WriteJournal(marked, r.id, Journal(r.payload, Committed(reply)));
    (committed, if committed.status == Going then Replied(reply) else Lost)
  }

  function ReplyOf(f: Files, id: ActionId): Reply
  {
    if id in f.run.receipts then Done(f.run.receipts[id].version, f.run.receipts[id].phase, f.run.receipts[id].conclusion)
    else Done(f.run.version, f.run.run.phase, f.run.run.conclusion)
  }

  /** With the journal begun: answer from the receipt, decline a stale version, or act. */
  ghost function Continue(doc: Document, w: Work, r: Request, granted: bool): (Work, Response)
    requires Fits(doc, w.files.nodes)
  {
    var f := w.files;
    if w.status != Going then (w, Lost)
    else if r.id in f.run.receipts then
      if f.run.receipts[r.id].payload != r.payload then (w, Refused(BoundElsewhere)) else Record(w, r, ReplyOf(f, r.id))
    else if f.run.version != r.payload.expected then Record(w, r, Declined(VersionConflict))
    else
      var done := Resume(doc, w, r, granted);
      match done.status
      case Crashed => (done, Lost)
      case Halted(fault) => if Terminal(fault) then Record(done.(status := Going), r, Declined(fault)) else (done, Refused(fault))
      case Going => Record(done, r, ReplyOf(done.files, r.id))
  }

  /** One submission of a request that crashes after the given number of writes, and that
      gets the run's lease or not. */
  ghost function Submit(doc: Document, f: Files, r: Request, writes: nat, granted: bool): (Files, Response)
    requires Fits(doc, f.nodes)
  {
    var w := Work(f, writes, Going);
    if r.id in f.journals then
      var j := f.journals[r.id];
      if j.payload != r.payload then (f, Refused(BoundElsewhere))
      else
        match j.state
        case Committed(reply) => (f, Replied(reply))
        case Mutated(reply) =>
          var committed := WriteJournal(w, r.id, Journal(r.payload, Committed(reply)));
          (committed.files, if committed.status == Going then Replied(reply) else Lost)
        case Opened =>
          var (done, outcome) := Continue(doc, w, r, granted);
          (done.files, outcome)
    else if r.id in f.run.receipts then
      (f, Refused(if f.run.receipts[r.id].payload != r.payload then BoundElsewhere else NoJournal))
    else if f.run.version != r.payload.expected then (f, Refused(VersionConflict))
    else
      var (done, outcome) := Continue(doc, WriteJournal(w, r.id, Journal(r.payload, Opened)), r, granted);
      (done.files, outcome)
  }
}
