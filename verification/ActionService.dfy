/** The application service's action path as it runs, with the files it writes in place. */
module ActionService {
  import opened Workflow
  import opened Scheduler
  import opened Topology
  import opened RunMachine
  import opened ActionReplay
  import Lease

  lemma OldestUnique(receipts: map<ActionId, Receipt>, a: ActionId, b: ActionId)
    requires IsOldest(receipts, a) && IsOldest(receipts, b)
    ensures a == b
  {
    assert a == b || Older(receipts, a, b);
  }

  method FindOldest(receipts: map<ActionId, Receipt>) returns (oldest: ActionId)
    requires receipts.Keys != {}
    ensures IsOldest(receipts, oldest)
  {
    oldest :| oldest in receipts;
    var rest := receipts.Keys - {oldest};
    while rest != {}
      invariant rest <= receipts.Keys && oldest in receipts
      invariant forall id :: id in receipts && id !in rest && id != oldest ==> Older(receipts, oldest, id)
      decreases |rest|
    {
      var id :| id in rest;
      rest := rest - {id};
      if id != oldest && Older(receipts, id, oldest) { oldest := id; }
    }
  }

  method EvictReceipts(all: map<ActionId, Receipt>) returns (receipts: map<ActionId, Receipt>)
    ensures receipts == Evicted(all)
  {
    receipts := all;
    while |receipts.Keys| > MAX_RECEIPTS
      invariant Evicted(receipts) == Evicted(all)
      decreases |receipts.Keys|
    {
      var oldest := FindOldest(receipts);
      EvictOne(receipts, oldest);
      SmallerKeys(receipts, oldest);
      receipts := receipts - {oldest};
    }
  }

  lemma EvictOne(receipts: map<ActionId, Receipt>, oldest: ActionId)
    requires |receipts.Keys| > MAX_RECEIPTS && IsOldest(receipts, oldest)
    ensures Evicted(receipts) == Evicted(receipts - {oldest})
  {
    var chosen :| IsOldest(receipts, chosen) && Evicted(receipts) == Evicted(receipts - {chosen});
    OldestUnique(receipts, oldest, chosen);
  }

  class Service {
    const doc: Document
    var journals: map<ActionId, Journal>
    var intents: map<ActionId, Intent>
    var nodes: seq<Node>
    var run: RunFile
    /** Durable writes that still happen before the crash. */
    var left: nat

    constructor (doc: Document, files: Files)
      ensures this.doc == doc && Now() == files
    {
      this.doc := doc;
      journals, intents, nodes, run, left := files.journals, files.intents, files.nodes, files.run, 0;
    }

    function Now(): Files
      reads this
    {
      Files(journals, intents, nodes, run)
    }

    function At(ok: bool): Work
      reads this
    {
      Work(Now(), left, if ok then Going else Crashed)
    }

    // ----- the store -----

    method PutJournal(id: ActionId, j: Journal) returns (ok: bool)
      modifies `journals, `left
      ensures At(ok) == WriteJournal(old(At(true)), id, j)
    {
      if left == 0 { return false; }
      journals, left := journals[id := j], left - 1;
      return true;
    }

    method PutIntent(id: ActionId, intent: Intent) returns (ok: bool)
      modifies `intents, `left
      ensures At(ok) == WriteIntent(old(At(true)), id, intent)
    {
      if left == 0 { return false; }
      intents, left := intents[id := intent], left - 1;
      return true;
    }

    method DeleteIntent(id: ActionId) returns (ok: bool)
      modifies `intents, `left
      ensures At(ok) == RemoveIntent(old(At(true)), id)
    {
      if left == 0 { return false; }
      intents, left := intents - {id}, left - 1;
      return true;
    }

    method PutNode(i: NodeId, n: Node) returns (ok: bool)
      requires i < |nodes|
      modifies `nodes, `left
      ensures At(ok) == ReplaceNode(old(At(true)), i, n)
    {
      if left == 0 { return false; }
      nodes, left := nodes[i := n], left - 1;
      return true;
    }

    // ----- the engine's part -----

    /** The plan of an action: its target, then every skipped node below it. */
    method MakePlan(action: Action) returns (ms: seq<Mutation>)
      requires Fits(doc, nodes) && Takes(nodes, action)
      ensures ms == PlanAction(doc, nodes, action)
    {
      ms := [Mutation(action.i, nodes[action.i], Target(nodes[action.i], action))];
      if action.Decide? { return; }
      var below := SweepDownstream(doc, action.i);
      var resets: seq<Mutation>, j := [], 0;
      while j < |nodes|
        invariant 0 <= j <= |nodes| && resets == Resets(doc, nodes, action.i, j)
      {
        if j in below && nodes[j].phase == Skipped { resets := resets + [Mutation(j, nodes[j], Reset(nodes[j]))]; }
        j := j + 1;
      }
      ms := ms + resets;
    }

    /** Applies a plan from its start, passing over what is counted as applied. */
    method ApplyPlan(id: ActionId, plan: Intent) returns (status: Status)
      modifies `nodes, `intents, `left
      ensures At(true).(status := status) == ApplyFrom(old(At(true)), id, plan, 0)
    {
      var intent, idx := plan, 0;
      ghost var w := At(true);
      while idx < |intent.mutations|
        invariant 0 <= idx <= |intent.mutations|
        invariant ApplyFrom(w, id, plan, 0) == ApplyFrom(At(true), id, intent, idx)
      {
        if idx < intent.applied {
          idx := idx + 1;
          continue;
        }
        var m := intent.mutations[idx];
        if m.i >= |nodes| || (nodes[m.i] != m.after && nodes[m.i] != m.before) { return Halted(Unreplayable); }
        var ok := true;
        if nodes[m.i] != m.after { ok := PutNode(m.i, m.after); }
        intent := intent.(applied := idx + 1);
        if ok { ok := PutIntent(id, intent); }
        idx := idx + 1;
        if !ok { return Crashed; }
      }
      return Going;
    }

    /** One version more, the receipt, and no more plan. */
    method FinalizeAction(id: ActionId, payload: Payload) returns (ok: bool)
      modifies `run, `intents, `left
      ensures At(ok) == Finalize(old(At(true)), id, payload)
    {
      if left == 0 { return false; }
      var after := run.run.(phase := RunRunning, conclusion := NoConclusion, reason := NoReason, cancelRequested := false);
      var receipts := EvictReceipts(run.receipts[id := Receipt(payload, run.version + 1, RunRunning, NoConclusion)]);
      run, left := RunFile(after, run.version + 1, receipts), left - 1;
      ok := DeleteIntent(id);
    }

    method ApplyAndFinalize(id: ActionId, intent: Intent) returns (status: Status)
      modifies `run, `nodes, `intents, `left
      ensures At(true).(status := status) == ApplyIntent(old(At(true)), id, intent)
    {
      status := ApplyPlan(id, intent);
      if status != Going { return; }
      var ok := FinalizeAction(id, intent.payload);
      status := if ok then Going else Crashed;
    }

    /** Tries for the run's lease until it is taken or the wait is over. */
    method AcquireLease(tries: seq<Try>) returns (granted: bool)
      ensures granted == Granted(tries)
    {
      var n := 0;
      while n < |tries|
        invariant 0 <= n <= |tries|
        invariant forall m :: 0 <= m < n ==> !Lease.GivesWay(tries[m].found, tries[m].sampled, false, Lease.Unknown)
      {
        if tries[n].found.None? || tries[n].found.value.expires <= tries[n].sampled { return true; }
        n := n + 1;
      }
      return false;
    }

    /** Replays the plan on disk, repeats a decision without one, or makes one and applies it. */
    method ResumeAction(r: Request, tries: seq<Try>) returns (status: Status)
      requires Fits(doc, nodes)
      modifies `run, `nodes, `intents, `left
      ensures At(true).(status := status) == Resume(doc, old(At(true)), r, Granted(tries))
    {
      hide Finalize, ApplyIntent, Takes, Granted, PlanAction;
      var granted := AcquireLease(tries);
      if !granted { return Halted(LeaseHeld); }
      if r.id in intents {
        var intent := intents[r.id];
        if intent.payload != r.payload || intent.mutations == [] { return Halted(Unreplayable); }
        status := ApplyMarked(r.id, intent);
        return;
      }
      if run.version != r.payload.expected { return Halted(VersionConflict); }
      if Repeats(nodes, r.payload.action) {
        if run.run.phase == RunCompleted { return Going; }
        var ok := FinalizeAction(r.id, r.payload);
        return if ok then Going else Crashed;
      }
      if NeedsAcknowledgement(nodes, r.payload.action) { return Halted(Unacknowledged); }
      if !Takes(nodes, r.payload.action) { return Halted(NotApplicable); }
      if exists other :: other in intents && other != r.id { return Halted(OtherPending); }
      var plan := MakePlan(r.payload.action);
      var intent := Intent(r.payload, false, 0, plan);
      var ok := PutIntent(r.id, intent);
      if !ok {
        CrashIsFinal(WriteIntent(At(false), r.id, intent.(applying := true)), r.id, intent.(applying := true));
        return Crashed;
      }
      status := ApplyMarked(r.id, intent);
    }

    /** Marks a plan as being applied, unless it is, and applies it. */
    method ApplyMarked(id: ActionId, planned: Intent) returns (status: Status)
      modifies `run, `nodes, `intents, `left
      ensures At(true).(status := status) ==
                if planned.applying then ApplyIntent(old(At(true)), id, planned)
                else ApplyIntent(WriteIntent(old(At(true)), id, planned.(applying := true)), id, planned.(applying := true))
    {
      var intent := planned;
      if !intent.applying {
        intent := intent.(applying := true);
        var ok := PutIntent(id, intent);
        CrashIsFinal(At(false), id, intent);
        if !ok { return Crashed; }
      }
      status := ApplyAndFinalize(id, intent);
    }

    // ----- the journal around it -----

    method RecordReply(r: Request, reply: Reply) returns (response: Response)
      modifies `journals, `left
      ensures var (done, expected) := Record(old(At(true)), r, reply); Now() == done.files && response == expected
    {
      var ok := PutJournal(r.id, Journal(r.payload, Mutated(reply)));
      if !ok { return Lost; }
      ok := PutJournal(r.id, Journal(r.payload, Committed(reply)));
      response := if ok then Replied(reply) else Lost;
    }

    method ContinueAction(r: Request, tries: seq<Try>) returns (response: Response)
      requires Fits(doc, nodes)
      modifies this
      ensures var (done, expected) := Continue(doc, old(At(true)), r, Granted(tries)); Now() == done.files && response == expected
    {
      hide Resume, Granted;
      if r.id in run.receipts {
        if run.receipts[r.id].payload != r.payload { return Refused(BoundElsewhere); }
        response := RecordReply(r, ReplyOf(Now(), r.id));
        return;
      }
      if run.version != r.payload.expected {
        response := RecordReply(r, Declined(VersionConflict));
        return;
      }
      var status := ResumeAction(r, tries);
      match status {
        case Crashed => response := Lost;
        case Halted(fault) =>
          if !Terminal(fault) { return Refused(fault); }
          response := RecordReply(r, Declined(fault));
        case Going => response := RecordReply(r, ReplyOf(Now(), r.id));
      }
    }

    /** One submission; the process crashes after the given number of durable writes. */
    method RunAction(r: Request, writes: nat, tries: seq<Try>) returns (response: Response)
      requires Fits(doc, nodes)
      modifies this
      ensures (Now(), response) == Submit(doc, old(Now()), r, writes, Granted(tries))
    {
      hide Continue, Granted;
      left := writes;
      if r.id in journals {
        if journals[r.id].payload != r.payload { return Refused(BoundElsewhere); }
        match journals[r.id].state {
          case Committed(reply) => return Replied(reply);
          case Mutated(reply) =>
            var ok := PutJournal(r.id, Journal(r.payload, Committed(reply)));
            return if ok then Replied(reply) else Lost;
          case Opened =>
            response := ContinueAction(r, tries);
            return;
        }
      }
      if r.id in run.receipts {
        return Refused(if run.receipts[r.id].payload != r.payload then BoundElsewhere else NoJournal);
      }
      if run.version != r.payload.expected { return Refused(VersionConflict); }
      var ok := PutJournal(r.id, Journal(r.payload, Opened));
      if !ok {
        CrashedContinues(doc, At(false), r, Granted(tries));
        return Lost;
      }
      response := ContinueAction(r, tries);
    }
  }

  /** After a crash nothing more is written. */
  lemma CrashIsFinal(w: Work, id: ActionId, intent: Intent)
    requires w.status == Crashed
    ensures ApplyIntent(w, id, intent) == w
  {
  }

  lemma CrashedContinues(doc: Document, w: Work, r: Request, granted: bool)
    requires w.status == Crashed && Fits(doc, w.files.nodes)
    ensures Continue(doc, w, r, granted) == (w, Lost)
  {
  }
}
