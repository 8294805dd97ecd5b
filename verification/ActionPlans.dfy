/** Exactly when an action is accepted, exactly when its plan stays on disk after that,
    and what a plan left behind does to the run. */
module ActionPlans {
  import opened Workflow
  import opened Scheduler
  import opened Topology
  import opened RunMachine
  import opened ActionReplay
  import opened ActionGuarantees

  // ----- the price of an acceptance -----

  /** The writes that the mutations from n on still take: two each, or one where the node
      already is as planned. */
  function Remaining(nodes: seq<Node>, ms: seq<Mutation>, n: nat): nat
    decreases |ms| - n
  {
    if n >= |ms| || ms[n].i >= |nodes| then 0
    else (if nodes[ms[n].i] == ms[n].after then 1 else 2) + Remaining(nodes[ms[n].i := ms[n].after], ms, n + 1)
  }

  /** Whether a submission that gets the run's lease can get the request accepted: it is open,
      not bound, up to date, and either planned already, or a repeated decision on a run that
      is not completed, or applicable with no other plan in the way. */
  ghost predicate CanAccept(f: Files, r: Request)
  {
    && (r.id in f.journals ==> f.journals[r.id] == Journal(r.payload, Opened))
    && r.id !in f.run.receipts && f.run.version == r.payload.expected
    && (|| r.id in f.intents || (Redecides(f, r) && f.run.run.phase != RunCompleted)
        || (Takes(f.nodes, r.payload.action) && forall other :: other in f.intents ==> other == r.id))
  }

  /** The writes from the journal up to and including the run's file. */
  ghost function Price(doc: Document, f: Files, r: Request): nat
    requires Fits(doc, f.nodes) && CanAccept(f, r)
  {
    assert r.id !in f.intents && !Redecides(f, r) ==> Takes(f.nodes, r.payload.action);
    var journal := if r.id in f.journals then 0 else 1;
    var plan :=
      if Redecides(f, r) then 0
      else if r.id !in f.intents then 2 + Remaining(f.nodes, PlanAction(doc, f.nodes, r.payload.action), 0)
      else
        var intent := f.intents[r.id];
        (if intent.applying then 0 else 1) + Remaining(f.nodes, intent.mutations, intent.applied);
    journal + plan + 1
  }

  /** Getting from w to done takes that many writes, and goes through if and only if they are left. */
  predicate Paid(w: Work, done: Work, cost: nat)
  {
    (done.status == Going <==> w.left >= cost) && (done.status == Going ==> done.left == w.left - cost)
  }

  lemma OneCosts(doc: Document, w: Work, r: Request, base: seq<Node>) returns (cost: nat)
    requires Partly(doc, w.files, r, base) && w.status == Going
    requires var intent := w.files.intents[r.id]; intent.applying && intent.applied < |intent.mutations|
    ensures
      var intent := w.files.intents[r.id];
      && intent.mutations[intent.applied].i < |w.files.nodes| &&
      var next := ApplyOne(w, r.id, intent);
      var (all, rest) := (Remaining(w.files.nodes, intent.mutations, intent.applied), Remaining(next.files.nodes, intent.mutations, intent.applied + 1));
      Paid(w, next, cost) && all >= cost && (next.status == Going ==> all == cost + rest)
  {
    hide Takes, PlanAction, Fits, AfterFirst;
    var intent := w.files.intents[r.id];
    var m := intent.mutations[intent.applied];
    cost := if w.files.nodes[m.i] == m.after then 1 else 2;
    var next := ApplyOne(w, r.id, intent);
    if next.status == Going { assert next.files.nodes == w.files.nodes[m.i := m.after]; }
  }

  lemma NextCosts(doc: Document, w: Work, r: Request, base: seq<Node>, intent: Intent) returns (next: Work, cost: nat)
    requires Partly(doc, w.files, r, base) && w.status == Going && w.files.intents[r.id] == intent
    requires intent.applying && intent.applied < |intent.mutations|
    ensures Partly(doc, next.files, r, base) && Paid(w, next, cost)
    ensures
      var more := intent.(applied := intent.applied + 1);
      var all, rest := Remaining(w.files.nodes, intent.mutations, intent.applied), Remaining(next.files.nodes, intent.mutations, more.applied);
      && (next.status == Going ==> next.files.intents[r.id] == more && all == cost + rest)
      && ApplyFrom(w, r.id, intent, intent.applied) == ApplyFrom(next, r.id, more, more.applied) && all >= cost
  {
    hide Partly, ApplyOne, PlanFrame, OneFurther, ApplyFrom, Remaining, Paid;
    assert r.id in w.files.intents by { PartlyHasPlan(doc, w.files, r, base); }
    ApplyOneKeeps(doc, w, r, base);
    next := ApplyOne(w, r.id, intent);
    ApplyFromStep(w, r.id, intent);
    cost := OneCosts(doc, w, r, base);
    OneFurtherMeans(w, next, r);
  }

  lemma PartlyHasPlan(doc: Document, f: Files, r: Request, base: seq<Node>)
    requires Partly(doc, f, r, base)
    ensures r.id in f.intents && f.intents[r.id].applied <= |f.intents[r.id].mutations|
  {
  }

  lemma PaidNothing(w: Work, id: ActionId, intent: Intent)
    requires w.status == Going && intent.applied == |intent.mutations|
    ensures Paid(w, ApplyFrom(w, id, intent, intent.applied), Remaining(w.files.nodes, intent.mutations, intent.applied))
  {
  }

  lemma PaidShort(w: Work, done: Work, some: nat, all: nat)
    requires Paid(w, done, some) && done.status != Going && some <= all
    ensures Paid(w, done, all)
  {
  }

  lemma PaidTwice(w: Work, next: Work, done: Work, first: nat, rest: nat)
    requires Paid(w, next, first) && next.status == Going && Paid(next, done, rest)
    ensures Paid(w, done, first + rest)
  {
  }

  /** Going on with a plan gets to its end if and only if the writes suffice. */
  lemma {:induction false} RestCosts(doc: Document, w: Work, r: Request, base: seq<Node>, intent: Intent)
    requires Partly(doc, w.files, r, base) && w.status == Going && w.files.intents[r.id] == intent && intent.applying
    requires intent.applied <= |intent.mutations|
    ensures Paid(w, ApplyFrom(w, r.id, intent, intent.applied), Remaining(w.files.nodes, intent.mutations, intent.applied))
    decreases |intent.mutations| - intent.applied
  {
    hide *;
    if intent.applied == |intent.mutations| {
      PaidNothing(w, r.id, intent);
    } else {
      var next, cost := NextCosts(doc, w, r, base, intent);
      var more := intent.(applied := intent.applied + 1);
      var all, rest := Remaining(w.files.nodes, intent.mutations, intent.applied), Remaining(next.files.nodes, intent.mutations, more.applied);
      var done := ApplyFrom(next, r.id, more, more.applied);
      if next.status == Going {
        RestCosts(doc, next, r, base, more);
        PaidTwice(w, next, done, cost, rest);
      } else {
        ApplyFromEnd(next, r.id, more, more.applied);
        PaidShort(w, next, cost, all);
      }
    }
  }

  lemma ApplyFromCosts(doc: Document, w: Work, r: Request, base: seq<Node>)
    requires Partly(doc, w.files, r, base) && w.files.intents[r.id].applying && w.status == Going
    ensures
      var intent := w.files.intents[r.id];
      var cost := Remaining(w.files.nodes, intent.mutations, intent.applied);
      var done := ApplyFrom(w, r.id, intent, 0);
      && (done.status == Going <==> w.left >= cost) && (done.status == Going ==> done.left == w.left - cost)
      && !done.status.Halted? && done.files.run == w.files.run && done.files.intents.Keys == w.files.intents.Keys
  {
    hide ApplyFrom, PlanOk, AfterFirst, PlanAction, Takes, Fits;
    ApplyFromKeeps(doc, w, r, base);
    CountedIsSkipped(w, r.id, w.files.intents[r.id], 0);
    RestCosts(doc, w, r, base, w.files.intents[r.id]);
  }

  // ----- one submission -----

  /** Nothing else is planned while the request is part-way. */
  ghost predicate Alone(f: Files, r: Request)
  {
    r.id in f.journals && f.journals[r.id].state.Opened? && r.id in f.intents && r.id !in f.run.receipts ==> f.intents.Keys == {r.id}
  }

  /** What a section with that many writes left makes of a request with that price: it is
      accepted if and only if they suffice, and its plan stays if and only if they then run
      out before the plan's removal. A repeated decision touches no node and no plan. */
  ghost predicate Outcome(f: Files, g: Files, r: Request, left: nat, price: nat)
  {
    && (r.id in g.run.receipts <==> left >= price) && Alone(g, r)
    && (r.id in g.run.receipts ==> g.run == Accepted(f.run, r.id, r.payload))
    && if Redecides(f, r) then g.nodes == f.nodes && g.intents == f.intents && (r.id !in g.run.receipts ==> g.run == f.run)
       else r.id in g.run.receipts ==> g.intents.Keys == if left == price then {r.id} else {}
  }

  ghost predicate OutcomeOfPlan(f: Files, g: Files, r: Request, left: nat, price: nat)
  {
    && (r.id in g.run.receipts <==> left >= price) && Alone(g, r)
    && (r.id in g.run.receipts ==>
          g.run == Accepted(f.run, r.id, r.payload) && g.intents.Keys == if left == price then {r.id} else {})
  }

  lemma ApplyIntentCosts(doc: Document, w: Work, r: Request, base: seq<Node>)
    requires Partly(doc, w.files, r, base) && ReceiptsOk(w.files.run) && w.files.intents.Keys == {r.id}
    requires w.files.intents[r.id].applying && w.status == Going
    ensures
      var intent := w.files.intents[r.id];
      OutcomeOfPlan(w.files, ApplyIntent(w, r.id, intent).files, r, w.left, Remaining(w.files.nodes, intent.mutations, intent.applied) + 1)
  {
    AcceptedKeepsReceipt(w.files.run, r);
    ApplyFromCosts(doc, w, r, base);
    hide ApplyFrom, Accepted, PlanOk, AfterFirst, PlanAction, Takes, Fits, ReceiptsOk;
  }

  lemma ResumeReplayCosts(doc: Document, w: Work, r: Request, base: seq<Node>)
    requires Partly(doc, w.files, r, base) && ReceiptsOk(w.files.run) && Alone(w.files, r) && w.status == Going && Fits(doc, w.files.nodes)
    requires r.id in w.files.journals && w.files.journals[r.id] == Journal(r.payload, Opened)
    ensures CanAccept(w.files, r) && Outcome(w.files, Resume(doc, w, r, true).files, r, w.left, Price(doc, w.files, r))
  {
    hide ApplyIntent, Accepted, Takes, AfterFirst, PlanAction, Remaining;
    var intent := w.files.intents[r.id];
    if intent.applying {
      ApplyIntentCosts(doc, w, r, base);
    } else {
      var applying := intent.(applying := true);
      var w1 := WriteIntent(w, r.id, applying);
      if w1.status == Going {
        assert w1.files.intents.Keys == w.files.intents.Keys + {r.id};
        ApplyIntentCosts(doc, w1, r, base);
      } else {
        CrashedIntent(w1, r.id, applying);
      }
    }
  }

  lemma ResumePlanCosts(doc: Document, w: Work, r: Request)
    requires Untouched(w.files, r) && ReceiptsOk(w.files.run) && w.status == Going && Fits(doc, w.files.nodes)
    requires r.id in w.files.journals && w.files.journals[r.id] == Journal(r.payload, Opened) && CanAccept(w.files, r) && !Redecides(w.files, r)
    ensures Outcome(w.files, Resume(doc, w, r, true).files, r, w.left, Price(doc, w.files, r))
  {
    OnlyRetriesWait(w.files.nodes, r.payload.action);
    NeverBoth(w.files.nodes, r.payload.action);
    hide ApplyIntent, Accepted, Takes, Repeats, NeedsAcknowledgement, AfterFirst, PlanAction, Remaining;
    var f := w.files;
    var planned := Intent(r.payload, false, 0, PlanAction(doc, f.nodes, r.payload.action));
    var applying := planned.(applying := true);
    var w1 := WriteIntent(w, r.id, planned);
    var w2 := WriteIntent(w1, r.id, applying);
    assert f.intents.Keys == {};
    if w1.status == Going {
      assert w1.files.intents.Keys == {r.id};
      if w2.status == Going {
        assert w2.files.intents == f.intents[r.id := applying] && w2.files.intents.Keys == {r.id};
        PlannedIsPartly(doc, f, r, w2.files, true);
        ApplyIntentCosts(doc, w2, r, f.nodes);
      } else {
        CrashedIntent(w2, r.id, applying);
      }
    } else {
      CrashedIntent(w2, r.id, applying);
    }
  }

  /** An action that fits is not one whose acknowledgement is missing. */
  lemma NeverBoth(nodes: seq<Node>, action: Action)
    ensures Takes(nodes, action) ==> !NeedsAcknowledgement(nodes, action)
  {
  }

  lemma ResumeRepeatCosts(doc: Document, w: Work, r: Request)
    requires Untouched(w.files, r) && ReceiptsOk(w.files.run) && w.status == Going && Fits(doc, w.files.nodes)
    requires r.id in w.files.journals && w.files.journals[r.id] == Journal(r.payload, Opened) && Redecides(w.files, r) && w.files.run.run.phase != RunCompleted
    ensures CanAccept(w.files, r) && Outcome(w.files, Resume(doc, w, r, true).files, r, w.left, Price(doc, w.files, r))
  {
    AcceptedKeepsReceipt(w.files.run, r);
    hide Accepted, Takes, Repeats, NeedsAcknowledgement, PlanAction, ReceiptsOk;
    assert w.files.intents - {r.id} == w.files.intents;
  }

  lemma ResumeRefuses(doc: Document, w: Work, r: Request, granted: bool)
    requires Untouched(w.files, r) && w.status == Going && Fits(doc, w.files.nodes) && w.files.run.version == r.payload.expected
    requires granted ==> !Takes(w.files.nodes, r.payload.action) || exists other :: other in w.files.intents && other != r.id
    requires granted && Redecides(w.files, r) ==> w.files.run.run.phase == RunCompleted
    ensures Resume(doc, w, r, granted).files == w.files && Resume(doc, w, r, granted).status != Crashed
  {
    hide ApplyIntent, Finalize, Takes, Repeats, NeedsAcknowledgement, PlanAction;
  }

  /** The files but for their journals. */
  ghost predicate SameRun(f: Files, g: Files) { g.run == f.run && g.nodes == f.nodes && g.intents == f.intents }

  /** What a submission does to the run: nothing, or what its writes pay for. */
  ghost predicate Pays(doc: Document, f: Files, g: Files, r: Request, writes: nat, granted: bool)
  {
    if Fits(doc, f.nodes) && CanAccept(f, r) && granted then Outcome(f, g, r, writes, Price(doc, f, r)) else SameRun(f, g)
  }

  lemma ResumePays(doc: Document, w: Work, r: Request, base: seq<Node>, granted: bool)
    requires Standing(doc, w.files, r, base) && Alone(w.files, r) && w.status == Going
    requires r.id in w.files.journals && w.files.journals[r.id].state.Opened?
    requires r.id !in w.files.run.receipts && w.files.run.version == r.payload.expected
    ensures Pays(doc, w.files, Resume(doc, w, r, granted).files, r, w.left, granted)
  {
    hide Resume, Partly, Fits, Price, Takes, Repeats, Accepted, Outcome;
    var f := w.files;
    if !granted {
      ResumeHeld(doc, w, r);
    } else if !Untouched(f, r) {
      ResumeReplayCosts(doc, w, r, base);
    } else if Redecides(f, r) && f.run.run.phase != RunCompleted {
      ResumeRepeatCosts(doc, w, r);
    } else if CanAccept(f, r) {
      NeverTwice(f.nodes, r.payload.action);
      ResumePlanCosts(doc, w, r);
    } else {
      ResumeRefuses(doc, w, r, granted);
    }
  }

  lemma NeverTwice(nodes: seq<Node>, action: Action)
    ensures Takes(nodes, action) ==> !Repeats(nodes, action)
  {
  }

  lemma ResumeHeld(doc: Document, w: Work, r: Request)
    requires w.status == Going && Fits(doc, w.files.nodes)
    ensures Resume(doc, w, r, false) == w.(status := Halted(LeaseHeld))
  {
  }

  lemma ContinuePays(doc: Document, w: Work, r: Request, base: seq<Node>, granted: bool)
    requires Standing(doc, w.files, r, base) && Alone(w.files, r) && w.status == Going
    requires r.id in w.files.journals && w.files.journals[r.id].state.Opened?
    ensures Pays(doc, w.files, Continue(doc, w, r, granted).0.files, r, w.left, granted)
  {
    hide Resume, Partly, Fits, Price, Takes, Repeats, Record, Terminal, Accepted;
    var f := w.files;
    if r.id in f.run.receipts {
      NotPartly(doc, f, r, base);
      RecordKeeps(w, r, ReplyOf(f, r.id));
    } else if f.run.version != r.payload.expected {
      NotPartly(doc, f, r, base);
      RecordKeeps(w, r, Declined(VersionConflict));
    } else {
      var done := Resume(doc, w, r, granted);
      ResumePays(doc, w, r, base, granted);
      match done.status
      case Crashed =>
      case Halted(fault) => RecordKeeps(done.(status := Going), r, Declined(fault));
      case Going => RecordKeeps(done, r, ReplyOf(done.files, r.id));
    }
  }

  lemma BegunPays(doc: Document, w: Work, r: Request, granted: bool)
    requires w.status == Going && r.id !in w.files.journals && Fits(doc, w.files.nodes) && Alone(w.files, r) && Untouched(w.files, r)
    ensures
      var begun := WriteJournal(w, r.id, Journal(r.payload, Opened));
      && (begun.status != Going ==> Pays(doc, w.files, Continue(doc, begun, r, granted).0.files, r, w.left, granted))
      && (begun.status == Going ==> forall g :: Pays(doc, begun.files, g, r, begun.left, granted) ==> Pays(doc, w.files, g, r, w.left, granted))
  {
    hide Resume, Fits, Takes, Repeats, PlanAction, Remaining;
  }

  lemma SubmitPays(doc: Document, f: Files, r: Request, base: seq<Node>, writes: nat, granted: bool)
    requires Standing(doc, f, r, base) && Alone(f, r)
    ensures Pays(doc, f, Submit(doc, f, r, writes, granted).0, r, writes, granted)
  {
    hide Partly, Continue, Takes, Repeats, Accepted, Fits, Price, Outcome;
    var w := Work(f, writes, Going);
    if r.id in f.journals {
      if f.journals[r.id].state.Opened? { ContinuePays(doc, w, r, base, granted); }
    } else if f.run.version == r.payload.expected {
      BegunPays(doc, w, r, granted);
      var begun := WriteJournal(w, r.id, Journal(r.payload, Opened));
      if begun.status == Going { ContinuePays(doc, begun, r, base, granted); }
    }
  }

  // ----- whole histories -----

  lemma {:induction false} SinceAlone(doc: Document, f: Files, r: Request, events: seq<Event>)
    requires Begins(doc, f, r)
    ensures Alone(Since(doc, f, r, events).files, r)
    decreases |events|
  {
    if events != [] {
      var n := |events| - 1;
      SinceAlone(doc, f, r, events[..n]);
      SinceOk(doc, f, r, events[..n]);
      var h := Since(doc, f, r, events[..n]);
      hide Partly, Submit, Price, Accepted, Fits, Bound, Settled, Granted, Takes, Repeats;
      match events[n]
      case Again(writes, tries) => SubmitPays(doc, h.files, r, h.base, writes, Granted(tries));
      case Elsewhere(g) =>
    }
  }

  /** A submission gets the request accepted if and only if it can be, the run's lease is
      taken and the writes reach the run's file; its plan stays on disk if and only if they
      run out right there, and a repeated decision leaves the plans as they were. */
  lemma AcceptedExactlyWhen(doc: Document, f: Files, r: Request, events: seq<Event>, writes: nat, tries: seq<Try>)
    requires Begins(doc, f, r)
    ensures
      var h := Since(doc, f, r, events);
      var t := Next(doc, h, r, Again(writes, tries));
      && Fits(doc, h.files.nodes)
      && (t.acceptances > h.acceptances <==> CanAccept(h.files, r) && Granted(tries) && writes >= Price(doc, h.files, r))
      && (t.acceptances > h.acceptances ==>
            && t.files.run == Accepted(h.files.run, r.id, r.payload)
            && if Redecides(h.files, r) then t.files.intents == h.files.intents && t.files.nodes == h.files.nodes
               else t.files.intents.Keys == if writes == Price(doc, h.files, r) then {r.id} else {})
  {
    SinceOk(doc, f, r, events);
    SinceAlone(doc, f, r, events);
    var h := Since(doc, f, r, events);
    SubmitPays(doc, h.files, r, h.base, writes, Granted(tries));
    hide Since, Submit, Price, Accepted, Partly, Takes, Repeats, Granted;
  }

  /** The submission whose writes run out between the run's file and the plan's removal. */
  ghost predicate CutAtRemoval(doc: Document, f: Files, r: Request, e: Event)
  {
    && e.Again? && Fits(doc, f.nodes) && CanAccept(f, r) && Granted(e.tries)
    && !Redecides(f, r) && e.writes == Price(doc, f, r)
  }

  /** Once the request is accepted, nothing brings its plan back or takes it away. */
  lemma AcceptedKeepsPlan(doc: Document, h: History, r: Request, e: Event)
    requires HistoryOk(doc, h, r) && Alone(h.files, r) && h.acceptances == 1
    ensures Next(doc, h, r, e).acceptances == 1 && !CutAtRemoval(doc, h.files, r, e)
    ensures r.id in Next(doc, h, r, e).files.intents <==> r.id in h.files.intents
  {
    hide Partly, Submit, Price, Fits, Granted, Takes, Repeats;
    if e.Again? {
      SubmitPays(doc, h.files, r, h.base, e.writes, Granted(e.tries));
    }
  }

  /** Whether some submission of a history was cut there. */
  ghost predicate WasCut(doc: Document, f: Files, r: Request, events: seq<Event>)
  {
    exists n :: 0 <= n < |events| && CutAtRemoval(doc, Since(doc, f, r, events[..n]).files, r, events[n])
  }

  lemma WasCutLater(doc: Document, f: Files, r: Request, events: seq<Event>)
    requires events != []
    ensures
      var n := |events| - 1;
      WasCut(doc, f, r, events) <==> WasCut(doc, f, r, events[..n]) || CutAtRemoval(doc, Since(doc, f, r, events[..n]).files, r, events[n])
  {
    hide Since, CutAtRemoval;
    var n := |events| - 1;
    forall m | 0 <= m < n ensures events[..n][..m] == events[..m] && events[..n][m] == events[m] {}
  }

  /** Over every history: an accepted request's plan is on disk if and only if one of its
      submissions was cut at the removal. */
  lemma {:induction false} PlanStaysIff(doc: Document, f: Files, r: Request, events: seq<Event>)
    requires Begins(doc, f, r)
    ensures var h := Since(doc, f, r, events); h.acceptances == 1 && r.id in h.files.intents <==> WasCut(doc, f, r, events)
    decreases |events|
  {
    if events != [] {
      var n := |events| - 1;
      var h := Since(doc, f, r, events[..n]);
      PlanStaysIff(doc, f, r, events[..n]);
      WasCutLater(doc, f, r, events);
      SinceOk(doc, f, r, events[..n]);
      SinceOk(doc, f, r, events);
      SinceAlone(doc, f, r, events[..n]);
      if events[n].Again? { AcceptedExactlyWhen(doc, f, r, events[..n], events[n].writes, events[n].tries); }
      if h.acceptances == 1 { AcceptedKeepsPlan(doc, h, r, events[n]); }
      hide Partly, Submit, Price, Fits, Accepted, CanAccept, WasCut, Standing, Granted, Redecides;
    }
  }

  // ----- an action part-way -----

  lemma {:induction false} RemainingAtMost(nodes: seq<Node>, ms: seq<Mutation>, n: nat)
    requires n <= |ms|
    ensures Remaining(nodes, ms, n) <= 2 * (|ms| - n)
    decreases |ms| - n
  {
    if n < |ms| && ms[n].i < |nodes| { RemainingAtMost(nodes[ms[n].i := ms[n].after], ms, n + 1); }
  }

  /** An action that stopped part-way with its journal is finished by one submission that
      does not crash if and only if it gets the run's lease: the nodes are those of the whole
      action, the run runs again, no plan is left and the request is answered. Without the
      lease nothing is written and there is no answer. */
  lemma PartWayIsFinished(doc: Document, f: Files, r: Request, events: seq<Event>, writes: nat, tries: seq<Try>)
    requires Begins(doc, f, r) && Partly(doc, Since(doc, f, r, events).files, r, Since(doc, f, r, events).base) && writes >= Enough(doc)
    ensures
      var h := Since(doc, f, r, events);
      && Fits(doc, h.files.nodes) &&
      var (g, response) := Submit(doc, h.files, r, writes, Granted(tries));
      if Granted(tries) then
        && g.nodes == Acted(doc, h.base, r.payload.action) && g.run == Accepted(h.files.run, r.id, r.payload)
        && g.run.run.phase == RunRunning && g.intents.Keys == {} && response == Replied(Acceptance(r))
      else g == h.files && response == Refused(LeaseHeld)
  {
    var h := Since(doc, f, r, events);
    SinceOk(doc, f, r, events);
    SinceAlone(doc, f, r, events);
    PartWayPrice(doc, h.files, r, h.base);
    SubmitPays(doc, h.files, r, h.base, writes, Granted(tries));
    SubmitKeeps(doc, h.files, r, h.base, writes, Granted(tries));
    ReplayAnswers(doc, f, r, events, writes, tries);
    NotRepeated(h.base, r.payload.action);
    hide Since, Submit, Price, Takes, Repeats, NeedsAcknowledgement, Acted, ReceiptsOk, Evicted, Granted;
  }

  lemma PartWayPrice(doc: Document, f: Files, r: Request, base: seq<Node>)
    requires Standing(doc, f, r, base) && Partly(doc, f, r, base)
    ensures CanAccept(f, r) && Price(doc, f, r) < Enough(doc)
  {
    var intent := f.intents[r.id];
    PlanFitsBudget(doc, base, r.payload.action);
    RemainingAtMost(f.nodes, intent.mutations, intent.applied);
    hide Remaining, PlanAction, Takes, AfterFirst;
  }

  function Least(a: nat, b: nat): nat { if a <= b then a else b }

  /** Where writes stand that began with some left and got to the k-th mutation, or stopped before it. */
  ghost predicate At(base: seq<Node>, ms: seq<Mutation>, p: Progress, left: nat, k: nat)
  {
    && PlanOk(base, ms) && k <= |ms| && p.disk.nodes == AfterFirst(base, ms, Least(left, k))
    && (p.ok <==> left >= k) && (p.ok ==> p.left == left - k)
  }

  lemma WriteIsNext(base: seq<Node>, ms: seq<Mutation>, p: Progress, left: nat, k: nat)
    requires At(base, ms, p, left, k) && k < |ms|
    ensures ms[k].i < |p.disk.nodes| && p.disk.nodes[ms[k].i] == base[ms[k].i]
    ensures At(base, ms, WriteNode(p, ms[k].i, ms[k].after), left, k + 1)
  {
    AfterFirstAt(base, ms, Least(left, k), ms[k].i);
  }

  lemma {:induction false} ResetsPrefix(doc: Document, nodes: seq<Node>, i: NodeId, n: nat, m: nat)
    requires Fits(doc, nodes) && n <= m <= |nodes|
    ensures Resets(doc, nodes, i, n) <= Resets(doc, nodes, i, m)
    decreases m
  {
    if n < m { ResetsPrefix(doc, nodes, i, n, m - 1); }
  }

  /** The last reset before n is the plan's mutation of that number. */
  lemma ResetInPlan(doc: Document, nodes: seq<Node>, action: Action, n: nat)
    requires Fits(doc, nodes) && Takes(nodes, action) && !action.Decide? && 0 < n <= |nodes|
    requires DependsOn(doc, n - 1, action.i) && nodes[n - 1].phase == Skipped
    ensures
      var ms := PlanAction(doc, nodes, action);
      var k := 1 + |Resets(doc, nodes, action.i, n - 1)|;
      k < |ms| && ms[k] == Mutation(n - 1, nodes[n - 1], Reset(nodes[n - 1])) && |Resets(doc, nodes, action.i, n)| == k
  {
    hide DependsOn, Takes;
    ResetsPrefix(doc, nodes, action.i, n, |nodes|);
    var rs := Resets(doc, nodes, action.i, n);
    assert rs[|rs| - 1] == Resets(doc, nodes, action.i, |nodes|)[|rs| - 1];
  }

  lemma EarlierResets(doc: Document, nodes: seq<Node>, action: Action, n: nat, j: nat)
    requires Fits(doc, nodes) && Takes(nodes, action) && !action.Decide? && 0 < n <= |nodes| && DependsOn(doc, n - 1, action.i)
    requires j < 1 + |Resets(doc, nodes, action.i, n - 1)|
    ensures j < |PlanAction(doc, nodes, action)| && PlanAction(doc, nodes, action)[j].i != n - 1
  {
    DependsOnEarlier(doc, n - 1, action.i);
    hide DependsOn, Takes, Fits, Target, Reset;
    ResetsPrefix(doc, nodes, action.i, n - 1, |nodes|);
    ResetsMeaning(doc, nodes, action.i, n - 1);
    var before := Resets(doc, nodes, action.i, n - 1);
    if j > 0 { assert PlanAction(doc, nodes, action)[j] == Resets(doc, nodes, action.i, |nodes|)[j - 1] == before[j - 1]; }
  }

  /** A node below the target is written by no earlier reset. */
  lemma NotYetReset(doc: Document, nodes: seq<Node>, action: Action, n: nat, p: Progress, left: nat)
    requires Fits(doc, nodes) && Takes(nodes, action) && !action.Decide? && 0 < n <= |nodes| && DependsOn(doc, n - 1, action.i)
    requires At(nodes, PlanAction(doc, nodes, action), p, left, 1 + |Resets(doc, nodes, action.i, n - 1)|)
    ensures p.disk.nodes[n - 1] == nodes[n - 1]
  {
    hide DependsOn, Takes, AfterFirst, PlanAction, Resets, Fits, PlanOk;
    var ms, k := PlanAction(doc, nodes, action), Least(left, 1 + |Resets(doc, nodes, action.i, n - 1)|);
    forall j | 0 <= j < k ensures ms[j].i != n - 1 { EarlierResets(doc, nodes, action, n, j); }
    AfterFirstAt(nodes, ms, k, n - 1);
  }

  lemma {:induction false} ResetsAreWritten(doc: Document, nodes: seq<Node>, action: Action, q: Progress, left: nat, n: nat)
    requires Fits(doc, nodes) && Takes(nodes, action) && !action.Decide? && n <= |nodes|
    requires |q.disk.nodes| == |nodes| && At(nodes, PlanAction(doc, nodes, action), q, left, 1)
    ensures At(nodes, PlanAction(doc, nodes, action), ResetWrites(doc, q, action.i, n), left, 1 + |Resets(doc, nodes, action.i, n)|)
  {
    hide DependsOn, Takes, At, PlanAction;
    if n > 0 {
      ResetsAreWritten(doc, nodes, action, q, left, n - 1);
      var before := ResetWrites(doc, q, action.i, n - 1);
      if DependsOn(doc, n - 1, action.i) {
        NotYetReset(doc, nodes, action, n, before, left);
        if nodes[n - 1].phase == Skipped {
          ResetInPlan(doc, nodes, action, n);
          WriteIsNext(nodes, PlanAction(doc, nodes, action), before, left, 1 + |Resets(doc, nodes, action.i, n - 1)|);
        }
      }
    }
  }

  /** Wherever the node writes of an action are cut short, the nodes are those of a prefix
      of its plan; they go through if and only if the writes cover the plan. */
  lemma CutIsPartOfThePlan(doc: Document, p: Progress, action: Action)
    requires Fits(doc, p.disk.nodes) && Takes(p.disk.nodes, action) && p.ok
    ensures
      var ms := PlanAction(doc, p.disk.nodes, action);
      && PlanOk(p.disk.nodes, ms)
      && ActWrites(doc, p, action).disk.nodes == AfterFirst(p.disk.nodes, ms, Least(p.left, |ms|))
      && (ActWrites(doc, p, action).ok <==> p.left >= |ms|)
  {
    hide Takes, Target, ResetWrites, Fits;
    var nodes, i := p.disk.nodes, action.i;
    var ms := PlanAction(doc, nodes, action);
    PlanIsSound(doc, nodes, action);
    assert i < |nodes| && ms[0] == Mutation(i, nodes[i], Target(nodes[i], action));
    assert At(nodes, ms, p, p.left, 0);
    WriteIsNext(nodes, ms, p, p.left, 0);
    if !action.Decide? { ResetsAreWritten(doc, nodes, action, WriteNode(p, i, ms[0].after), p.left, |nodes|); }
  }

  // ----- a plan left behind -----

  /** What can happen to a run: a submission of any request, or anything else. */
  datatype RunEvent = Asked(request: Request, writes: nat, tries: seq<Try>) | Outside(files: Files)

  /** The plan of a request that can no longer be accepted is on disk, and is the only one. */
  ghost predicate LeftOver(doc: Document, f: Files, stale: ActionId)
  {
    && Fits(doc, f.nodes) && ReceiptsOk(f.run) && f.intents.Keys == {stale} && stale in f.journals
    && (f.journals[stale].state.Opened? ==> f.run.version > f.journals[stale].payload.expected)
  }

  /** Only actions write plans, and only they open journals; the version never falls. */
  ghost predicate MayHappen(doc: Document, f: Files, g: Files, stale: ActionId)
  {
    && Fits(doc, g.nodes) && ReceiptsOk(g.run) && g.intents == f.intents && g.run.version >= f.run.version
    && stale in f.journals && stale in g.journals && g.journals[stale] == f.journals[stale]
  }

  ghost function Happened(doc: Document, f: Files, stale: ActionId, events: seq<RunEvent>): Files
  {
    if events == [] then f
    else
      var n := |events| - 1;
      var g := Happened(doc, f, stale, events[..n]);
      match events[n]
      case Asked(r, writes, tries) => if Fits(doc, g.nodes) then Submit(doc, g, r, writes, Granted(tries)).0 else g
      case Outside(files) => if MayHappen(doc, g, files, stale) then files else g
  }

  /** The request repeats the decision recorded on its node, at the current version of a run
      that is not completed, is neither answered nor bound already, gets the run's lease, and
      its writes reach the run's file. */
  ghost predicate Reopens(f: Files, r: Request, writes: nat, granted: bool)
  {
    && Repeats(f.nodes, r.payload.action) && f.run.version == r.payload.expected && f.run.run.phase != RunCompleted
    && (r.id in f.journals ==> f.journals[r.id] == Journal(r.payload, Opened)) && r.id !in f.run.receipts
    && granted && writes >= if r.id in f.journals then 1 else 2
  }

  /** What a submission makes of a run on which a plan was left: a repeated decision is
      accepted, and nothing else changes the run. */
  ghost predicate StillBlocked(f: Files, g: Files, r: Request, reopens: bool)
  {
    && g.nodes == f.nodes && g.intents == f.intents
    && g.run == if reopens then Accepted(f.run, r.id, r.payload) else f.run
  }

  lemma ResumeBlocked(doc: Document, w: Work, stale: ActionId, r: Request, granted: bool)
    requires LeftOver(doc, w.files, stale) && r.id in w.files.journals && w.files.journals[r.id] == Journal(r.payload, Opened)
    requires w.status == Going && r.id !in w.files.run.receipts && w.files.run.version == r.payload.expected
    ensures
      var done := Resume(doc, w, r, granted);
      && StillBlocked(w.files, done.files, r, Reopens(w.files, r, w.left, granted)) && done.files.journals == w.files.journals
      && (done.status == Going ==> Repeats(w.files.nodes, r.payload.action))
  {
    hide PlanAction, Takes, Repeats, NeedsAcknowledgement, Fits, ApplyIntent, Accepted, ReceiptsOk;
    assert r.id != stale && stale in w.files.intents;
    assert r.id !in w.files.intents;
    assert w.files.intents - {r.id} == w.files.intents;
  }

  lemma ReopenedStaysLeft(doc: Document, f: Files, g: Files, stale: ActionId, r: Request, reopens: bool)
    requires LeftOver(doc, f, stale) && StillBlocked(f, g, r, reopens) && (reopens ==> f.run.version == r.payload.expected)
    requires stale in g.journals && (g.journals[stale].state.Opened? ==> f.journals[stale] == g.journals[stale])
    ensures LeftOver(doc, g, stale)
  {
    if reopens { AcceptedKeepsReceipt(f.run, r); }
    hide Accepted;
  }

  /** Whatever is answered on a run with a plan left. */
  ghost predicate AnsweredBlocked(f: Files, r: Request, response: Response)
  {
    response.Replied? ==> response.reply.Declined? || Repeats(f.nodes, r.payload.action)
  }

  lemma ContinueBlocked(doc: Document, w: Work, stale: ActionId, r: Request, granted: bool)
    requires LeftOver(doc, w.files, stale) && r.id in w.files.journals && w.files.journals[r.id] == Journal(r.payload, Opened)
    ensures
      var (done, response) := Continue(doc, w, r, granted);
      && StillBlocked(w.files, done.files, r, w.status == Going && Reopens(w.files, r, w.left, granted)) && LeftOver(doc, done.files, stale)
      && (r.id !in w.files.run.receipts ==> AnsweredBlocked(w.files, r, response))
  {
    hide Repeats, Fits, Resume, Record, ReceiptsOk, Accepted;
    var f := w.files;
    var g := Continue(doc, w, r, granted).0.files;
    if w.status == Going {
      if r.id in f.run.receipts {
        RecordKeeps(w, r, ReplyOf(f, r.id));
      } else if f.run.version != r.payload.expected {
        RecordKeeps(w, r, Declined(VersionConflict));
      } else {
        var done := Resume(doc, w, r, granted);
        ResumeBlocked(doc, w, stale, r, granted);
        match done.status
        case Crashed =>
        case Halted(fault) => RecordKeeps(done.(status := Going), r, Declined(fault));
        case Going => RecordKeeps(done, r, ReplyOf(done.files, r.id));
      }
    }
    hide Continue, LeftOver;
    ReopenedStaysLeft(doc, f, g, stale, r, w.status == Going && Reopens(f, r, w.left, granted));
  }

  lemma SubmitBlocked(doc: Document, f: Files, stale: ActionId, r: Request, writes: nat, granted: bool)
    requires LeftOver(doc, f, stale)
    ensures
      var (g, response) := Submit(doc, f, r, writes, granted);
      && StillBlocked(f, g, r, Reopens(f, r, writes, granted)) && LeftOver(doc, g, stale)
      && (r.id !in f.journals ==> AnsweredBlocked(f, r, response))
  {
    hide Fits, Continue, Accepted, ReceiptsOk, Repeats;
    var w := Work(f, writes, Going);
    if r.id in f.journals {
      if f.journals[r.id] == Journal(r.payload, Opened) { ContinueBlocked(doc, w, stale, r, granted); }
    } else if r.id !in f.run.receipts && f.run.version == r.payload.expected {
      var begun := WriteJournal(w, r.id, Journal(r.payload, Opened));
      if begun.status == Going { ContinueBlocked(doc, begun, stale, r, granted); } else { ContinueCrashed(doc, begun, r, granted); }
    }
  }

  lemma ContinueCrashed(doc: Document, w: Work, r: Request, granted: bool)
    requires w.status != Going && Fits(doc, w.files.nodes)
    ensures Continue(doc, w, r, granted) == (w, Lost)
  {
  }

  /** From then on, whatever else happens, the plan stays, and a submission changes the run if
      and only if it repeats a decision on an open run: no other request is accepted. */
  lemma {:induction false} LeftPlanBlocks(doc: Document, f: Files, stale: ActionId, events: seq<RunEvent>, r: Request, writes: nat, tries: seq<Try>)
    requires LeftOver(doc, f, stale)
    ensures
      var g := Happened(doc, f, stale, events);
      && LeftOver(doc, g, stale) && g.intents == f.intents &&
      var (t, response) := Submit(doc, g, r, writes, Granted(tries));
      && (!SameRun(g, t) <==> Reopens(g, r, writes, Granted(tries)))
      && StillBlocked(g, t, r, Reopens(g, r, writes, Granted(tries)))
      && (r.id !in g.journals && response.Replied? ==> response.reply.Declined? || Repeats(g.nodes, r.payload.action))
    decreases |events|
  {
    hide Submit, Granted, Accepted, Evicted, Repeats, ReceiptsOk;
    if events != [] {
      var n := |events| - 1;
      var e := events[n];
      if e.Asked? {
        LeftPlanBlocks(doc, f, stale, events[..n], e.request, e.writes, e.tries);
        SubmitBlocked(doc, Happened(doc, f, stale, events[..n]), stale, e.request, e.writes, Granted(e.tries));
      } else {
        LeftPlanBlocks(doc, f, stale, events[..n], r, writes, tries);
      }
    }
    SubmitBlocked(doc, Happened(doc, f, stale, events), stale, r, writes, Granted(tries));
    AcceptedIsNew(Happened(doc, f, stale, events).run, r);
  }

  lemma AcceptedIsNew(run: RunFile, r: Request)
    ensures Accepted(run, r.id, r.payload) != run
  {
  }

  /** So after a submission cut at the removal the only actions still accepted on the run are
      repeated decisions. */
  lemma CutBlocksTheRun(doc: Document, f: Files, r: Request, events: seq<Event>, writes: nat, tries: seq<Try>, later: seq<RunEvent>, other: Request, again: nat, more: seq<Try>)
    requires Begins(doc, f, r) && CutAtRemoval(doc, Since(doc, f, r, events).files, r, Again(writes, tries))
    ensures
      var cut := Next(doc, Since(doc, f, r, events), r, Again(writes, tries)).files;
      var g := Happened(doc, cut, r.id, later);
      && r.id in g.intents && Fits(doc, g.nodes)
      && (!SameRun(g, Submit(doc, g, other, again, Granted(more)).0) <==> Reopens(g, other, again, Granted(more)))
  {
    AcceptedExactlyWhen(doc, f, r, events, writes, tries);
    SinceOk(doc, f, r, events + [Again(writes, tries)]);
    assert (events + [Again(writes, tries)])[..|events|] == events;
    var cut := Next(doc, Since(doc, f, r, events), r, Again(writes, tries)).files;
    assert LeftOver(doc, cut, r.id) by { hide Since, Submit, Price, Accepted, Partly, Takes, Repeats, Granted; }
    LeftPlanBlocks(doc, cut, r.id, later, other, again, more);
  }

  const ASKED := Node(Approval, Waiting, NoConclusion, ApprovalRequired, None, 0)

  /** Two approvals, neither before the other, both asked for. */
  const TWO_APPROVALS := Document([Definition(Approval, [], None), Definition(Approval, [], None)], 1)

  const APPROVE := Request(7, Payload(1, Decide(0, true, "")))

  /** The files six writes into the approval: everything but the plan's removal. */
  ghost function SixWritesIn(run: Run): Files
  {
    var after := Target(ASKED, APPROVE.payload.action);
    Files(map[APPROVE.id := Journal(APPROVE.payload, Opened)],
      map[APPROVE.id := Intent(APPROVE.payload, true, 1, [Mutation(0, ASKED, after)])],
      [after, ASKED], RunFile(Reopened(run), 2, map[APPROVE.id := ReceiptFor(APPROVE)]))
  }

  lemma CrashBeforeRemoval(run: Run)
    ensures Submit(TWO_APPROVALS, Files(map[], map[], [ASKED, ASKED], RunFile(run, 1, map[])), APPROVE, 6, true) == (SixWritesIn(run), Lost)
  {
    var f := Files(map[], map[], [ASKED, ASKED], RunFile(run, 1, map[]));
    var id, payload, after := APPROVE.id, APPROVE.payload, Target(ASKED, APPROVE.payload.action);
    var w1 := WriteJournal(Work(f, 6, Going), id, Journal(payload, Opened));
    var planned := Intent(payload, false, 0, [Mutation(0, ASKED, after)]);
    assert PlanAction(TWO_APPROVALS, [ASKED, ASKED], payload.action) == planned.mutations;
    var w3 := WriteIntent(WriteIntent(w1, id, planned), id, planned.(applying := true));
    var w5 := ApplyFrom(w3, id, planned.(applying := true), 0);
    ApplyFromOnce(w3, id, planned.(applying := true));
    assert w5.files.intents == map[id := planned.(applying := true, applied := 1)] && w5.files.nodes == [after, ASKED];
    var receipts := f.run.receipts[id := ReceiptFor(APPROVE)];
    assert receipts == map[id := ReceiptFor(APPROVE)] && receipts.Keys == {id};
    assert Evicted(receipts) == receipts;
    assert Finalize(w5, id, payload).files == SixWritesIn(run);
  }

  lemma ApplyFromOnce(w: Work, id: ActionId, intent: Intent)
    requires w.status == Going && |intent.mutations| == 1 && intent.applied == 0 && intent.mutations[0].i < |w.files.nodes|
    requires w.files.nodes[intent.mutations[0].i] == intent.mutations[0].before != intent.mutations[0].after
    ensures ApplyFrom(w, id, intent, 0) ==
              WriteIntent(ReplaceNode(w, intent.mutations[0].i, intent.mutations[0].after), id, intent.(applied := 1))
  {
  }

  /** Such a plan is left by a crash after the run's file and before the plan's removal:
      the next submission answers from the receipt and does not look at the plan. */
  lemma PlanLeftBehind(run: Run)
    ensures
      var f := Files(map[], map[], [ASKED, ASKED], RunFile(run, 1, map[]));
      && Begins(TWO_APPROVALS, f, APPROVE) && Submit(TWO_APPROVALS, f, APPROVE, 6, true) == (SixWritesIn(run), Lost)
      && var (g, response) := Submit(TWO_APPROVALS, SixWritesIn(run), APPROVE, 9, true);
      response == Replied(Acceptance(APPROVE)) && APPROVE.id in g.intents && g.journals[APPROVE.id].state.Committed?
  {
    CrashBeforeRemoval(run);
  }

  const APPROVE_AGAIN := Request(8, Payload(3, Decide(0, true, "")))

  const APPROVE_OTHER := Request(9, Payload(3, Decide(1, true, "")))

  /** The controller has gone on, and the run waits for the second approval. */
  ghost function WaitingAfterCut(run: Run): Files
  {
    var f := SixWritesIn(run);
    f.(run := RunFile(Run(RunWaiting, NoConclusion, ApprovalRequired, false), 3, f.run.receipts))
  }

  /** With that plan left, approving the first node again is accepted, and approving the one
      that the run waits for is declined. */
  lemma OnlyRepeatsPass(run: Run)
    ensures
      var f := WaitingAfterCut(run);
      && LeftOver(TWO_APPROVALS, f, APPROVE.id) && MayHappen(TWO_APPROVALS, SixWritesIn(run), f, APPROVE.id)
      && Submit(TWO_APPROVALS, f, APPROVE_AGAIN, 9, true).1 == Replied(Acceptance(APPROVE_AGAIN))
      && Submit(TWO_APPROVALS, f, APPROVE_AGAIN, 9, true).0.run.version == 4
      && Submit(TWO_APPROVALS, f, APPROVE_OTHER, 9, true).1 == Replied(Declined(OtherPending))
      && Submit(TWO_APPROVALS, f, APPROVE_OTHER, 9, true).0.run == f.run
  {
    var f := WaitingAfterCut(run);
    assert f.nodes[0].result == Some(Decided(true, "")) && APPROVE.id in f.intents;
    RepeatPasses(f);
    OtherDeclined(f);
  }

  lemma RepeatPasses(f: Files)
    requires Fits(TWO_APPROVALS, f.nodes) && f.nodes[0].result == Some(Decided(true, "")) && ReceiptsOk(f.run)
    requires f.journals.Keys == {APPROVE.id} == f.intents.Keys == f.run.receipts.Keys && f.run.version == 3 && f.run.run.phase == RunWaiting
    ensures
      var (g, response) := Submit(TWO_APPROVALS, f, APPROVE_AGAIN, 9, true);
      g.run.version == 4 && response == Replied(Acceptance(APPROVE_AGAIN))
  {
    var r := APPROVE_AGAIN;
    assert TextOf(f.nodes[0], DECISION) == Word(true) && TextOf(f.nodes[0], REASON) == "";
    AcceptedKeepsReceipt(f.run, r);
    hide Accepted, Takes, NeedsAcknowledgement;
  }

  lemma OtherDeclined(f: Files)
    requires Fits(TWO_APPROVALS, f.nodes) && f.nodes[1] == ASKED
    requires f.journals.Keys == {APPROVE.id} == f.intents.Keys == f.run.receipts.Keys && f.run.version == 3
    ensures
      var (g, response) := Submit(TWO_APPROVALS, f, APPROVE_OTHER, 9, true);
      g.run == f.run && response == Replied(Declined(OtherPending))
  {
    var r := APPROVE_OTHER;
    assert Takes(f.nodes, r.payload.action) && !Repeats(f.nodes, r.payload.action) && APPROVE.id in f.intents;
    hide ApplyIntent, Finalize, Accepted;
  }
}
