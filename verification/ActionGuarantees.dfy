/** An action is accepted exactly once, whole, and always answered the same. */
module ActionGuarantees {
  import opened Workflow
  import opened Scheduler
  import opened Topology
  import opened RunMachine
  import opened ActionReplay

  // ----- a plan, mutation by mutation -----

  /** The nodes after the first n mutations. */
  ghost function AfterFirst(base: seq<Node>, ms: seq<Mutation>, n: nat): (r: seq<Node>)
    requires n <= |ms| && forall j :: 0 <= j < |ms| ==> ms[j].i < |base|
    ensures |r| == |base|
  {
    if n == 0 then base else AfterFirst(base, ms, n - 1)[ms[n - 1].i := ms[n - 1].after]
  }

  /** A plan names each node once, as it is. */
  ghost predicate PlanOk(base: seq<Node>, ms: seq<Mutation>)
  {
    && ms != [] && (forall j :: 0 <= j < |ms| ==> ms[j].i < |base| && ms[j].before == base[ms[j].i])
    && (forall j, k :: 0 <= j < k < |ms| ==> ms[j].i != ms[k].i)
  }

  /** Resets of skipped nodes below i, in order. */
  ghost predicate ResetList(doc: Document, nodes: seq<Node>, i: NodeId, ms: seq<Mutation>, n: nat)
    requires Fits(doc, nodes) && n <= |nodes|
  {
    && (forall j :: 0 <= j < |ms| ==> ResetOf(doc, nodes, i, ms[j]) && ms[j].i < n)
    && (forall j, k :: 0 <= j < k < |ms| ==> ms[j].i < ms[k].i)
  }

  ghost predicate ResetOf(doc: Document, nodes: seq<Node>, i: NodeId, m: Mutation)
    requires Fits(doc, nodes)
  {
    m.i < |nodes| && m.before == nodes[m.i] && m.after == Reset(nodes[m.i]) && DependsOn(doc, m.i, i) && nodes[m.i].phase == Skipped
  }

  lemma {:induction false} ResetsMeaning(doc: Document, nodes: seq<Node>, i: NodeId, n: nat)
    requires Fits(doc, nodes) && n <= |nodes|
    ensures ResetList(doc, nodes, i, Resets(doc, nodes, i, n), n)
  {
    hide DependsOn;
    if n > 0 {
      ResetsMeaning(doc, nodes, i, n - 1);
      var before := Resets(doc, nodes, i, n - 1);
      assert ResetList(doc, nodes, i, before, n - 1);
      var m := Mutation(n - 1, nodes[n - 1], Reset(nodes[n - 1]));
      if DependsOn(doc, n - 1, i) && nodes[n - 1].phase == Skipped { assert ResetList(doc, nodes, i, before + [m], n); }
    }
  }

  lemma {:induction false} ResetsComplete(doc: Document, nodes: seq<Node>, i: NodeId, n: nat, j: NodeId)
    requires Fits(doc, nodes) && j < n <= |nodes| && DependsOn(doc, j, i) && nodes[j].phase == Skipped
    ensures exists k :: 0 <= k < |Resets(doc, nodes, i, n)| && Resets(doc, nodes, i, n)[k].i == j
  {
    if j == n - 1 {
      var k := |Resets(doc, nodes, i, n - 1)|;
      assert Resets(doc, nodes, i, n)[k].i == j;
    } else {
      ResetsComplete(doc, nodes, i, n - 1, j);
      var k :| 0 <= k < |Resets(doc, nodes, i, n - 1)| && Resets(doc, nodes, i, n - 1)[k].i == j;
      assert Resets(doc, nodes, i, n)[k].i == j;
    }
  }

  lemma {:induction false} AfterFirstAt(base: seq<Node>, ms: seq<Mutation>, n: nat, i: NodeId)
    requires n <= |ms| && PlanOk(base, ms) && i < |base|
    ensures (forall j :: 0 <= j < n ==> ms[j].i != i) ==> AfterFirst(base, ms, n)[i] == base[i]
    ensures forall j :: 0 <= j < n && ms[j].i == i ==> AfterFirst(base, ms, n)[i] == ms[j].after
  {
    if n > 0 { AfterFirstAt(base, ms, n - 1, i); }
  }

  lemma PlanIsSound(doc: Document, nodes: seq<Node>, action: Action)
    requires Fits(doc, nodes) && Takes(nodes, action)
    ensures PlanOk(nodes, PlanAction(doc, nodes, action))
  {
    hide DependsOn;
    ResetsMeaning(doc, nodes, action.i, |nodes|);
    var more := Resets(doc, nodes, action.i, |nodes|);
    forall j | 0 <= j < |more| ensures more[j].i != action.i && more[j].i < |nodes| && more[j].before == nodes[more[j].i] {
      assert ResetOf(doc, nodes, action.i, more[j]);
      DependsOnEarlier(doc, more[j].i, action.i);
    }
  }

  lemma PlanReset(doc: Document, nodes: seq<Node>, action: Action, j: NodeId)
    requires Fits(doc, nodes) && Takes(nodes, action) && j < |nodes| && j != action.i && !action.Decide?
    ensures
      var ms := PlanAction(doc, nodes, action);
      if DependsOn(doc, j, action.i) && nodes[j].phase == Skipped
      then exists k :: 0 <= k < |ms| && ms[k].i == j && ms[k].after == Reset(nodes[j])
      else forall k :: 0 <= k < |ms| ==> ms[k].i != j
  {
    hide DependsOn;
    var ms, more := PlanAction(doc, nodes, action), Resets(doc, nodes, action.i, |nodes|);
    ResetsMeaning(doc, nodes, action.i, |nodes|);
    if DependsOn(doc, j, action.i) && nodes[j].phase == Skipped {
      ResetsComplete(doc, nodes, action.i, |nodes|, j);
      var k :| 0 <= k < |more| && more[k].i == j;
      assert ResetOf(doc, nodes, action.i, more[k]);
      assert ms[k + 1] == more[k];
    } else {
      forall k | 0 <= k < |ms| ensures ms[k].i != j {
        if k > 0 { assert ms[k] == more[k - 1] && ResetOf(doc, nodes, action.i, more[k - 1]); }
      }
    }
  }

  /** A plan applied in full is the action. */
  lemma PlanIsTheAction(doc: Document, nodes: seq<Node>, action: Action)
    requires Fits(doc, nodes) && Takes(nodes, action)
    ensures PlanOk(nodes, PlanAction(doc, nodes, action))
    ensures AfterFirst(nodes, PlanAction(doc, nodes, action), |PlanAction(doc, nodes, action)|) == Acted(doc, nodes, action)
  {
    assert action.i < |nodes|;
    hide DependsOn, Takes, Target, AfterFirst;
    PlanIsSound(doc, nodes, action);
    var ms := PlanAction(doc, nodes, action);
    var r := AfterFirst(nodes, ms, |ms|);
    assert ms[0] == Mutation(action.i, nodes[action.i], Target(nodes[action.i], action));
    forall j | 0 <= j < |nodes| ensures r[j] == Acted(doc, nodes, action)[j] {
      AfterFirstAt(nodes, ms, |ms|, j);
      if j != action.i && !action.Decide? { PlanReset(doc, nodes, action, j); }
    }
  }

  // ----- a plan half applied -----

  /** The files while a plan is being applied: the nodes are those of the plan's start with
      the counted mutations applied, or one more. */
  ghost predicate Partly(doc: Document, f: Files, r: Request, base: seq<Node>)
  {
    && Fits(doc, base) && Takes(base, r.payload.action) && r.id in f.intents && r.id !in f.run.receipts
    && f.run.version == r.payload.expected && |f.nodes| == |base| &&
    var intent := f.intents[r.id];
    && intent.payload == r.payload && intent.mutations == PlanAction(doc, base, r.payload.action)
    && PlanOk(base, intent.mutations) && intent.applied <= |intent.mutations| && (!intent.applying ==> f.nodes == base && intent.applied == 0)
    && (f.nodes == AfterFirst(base, intent.mutations, intent.applied)
        || (intent.applied < |intent.mutations| && f.nodes == AfterFirst(base, intent.mutations, intent.applied + 1)))
  }

  /** Only this request's plan and the nodes differ. */
  ghost predicate PlanFrame(f: Files, g: Files, r: Request)
  {
    && g.journals == f.journals && g.run == f.run && |g.nodes| == |f.nodes|
    && (forall id :: id != r.id ==> (id in g.intents <==> id in f.intents))
    && (forall id :: id != r.id && id in f.intents ==> g.intents[id] == f.intents[id])
  }

  /** The next mutation's node is as planned before it, or as planned after it. */
  lemma NextMutation(base: seq<Node>, ms: seq<Mutation>, idx: nat, nodes: seq<Node>)
    requires PlanOk(base, ms) && idx < |ms|
    requires nodes == AfterFirst(base, ms, idx) || nodes == AfterFirst(base, ms, idx + 1)
    ensures nodes[ms[idx].i] == ms[idx].before || nodes[ms[idx].i] == ms[idx].after
    ensures nodes[ms[idx].i] == ms[idx].after ==> nodes == AfterFirst(base, ms, idx + 1)
    ensures nodes[ms[idx].i] != ms[idx].after ==> nodes[ms[idx].i := ms[idx].after] == AfterFirst(base, ms, idx + 1)
  {
    AfterFirstAt(base, ms, idx, ms[idx].i);
    AfterFirstAt(base, ms, idx + 1, ms[idx].i);
  }

  /** Applying one mutation, and counting it. */
  function ApplyOne(w: Work, id: ActionId, intent: Intent): Work
    requires intent.applied < |intent.mutations| && intent.mutations[intent.applied].i < |w.files.nodes|
  {
    var m := intent.mutations[intent.applied];
    var w1 := if w.files.nodes[m.i] == m.after then w else ReplaceNode(w, m.i, m.after);
    WriteIntent(w1, id, intent.(applied := intent.applied + 1))
  }

  lemma ApplyOneKeeps(doc: Document, w: Work, r: Request, base: seq<Node>)
    requires Partly(doc, w.files, r, base) && w.status == Going
    requires var intent := w.files.intents[r.id]; intent.applying && intent.applied < |intent.mutations|
    ensures
      var intent := w.files.intents[r.id];
      var m := intent.mutations[intent.applied];
      && m.i < |w.files.nodes| && (w.files.nodes[m.i] == m.after || w.files.nodes[m.i] == m.before) &&
      var done := ApplyOne(w, r.id, intent);
      OneFurther(w, done, r) && Partly(doc, done.files, r, base) && done.files.intents[r.id].applying
  {
    hide Takes, PlanAction, Fits, AfterFirst;
    var intent := w.files.intents[r.id];
    NextMutation(base, intent.mutations, intent.applied, w.files.nodes);
  }

  lemma ApplyFromStep(w: Work, id: ActionId, intent: Intent)
    requires w.status == Going && intent.applied < |intent.mutations| && intent.mutations[intent.applied].i < |w.files.nodes|
    requires var m := intent.mutations[intent.applied]; w.files.nodes[m.i] == m.after || w.files.nodes[m.i] == m.before
    ensures ApplyFrom(w, id, intent, intent.applied) ==
              ApplyFrom(ApplyOne(w, id, intent), id, intent.(applied := intent.applied + 1), intent.applied + 1)
  {
  }

  /** Going on with a plan from w ends in done: another point of the same plan. */
  ghost predicate Advances(doc: Document, w: Work, done: Work, r: Request, base: seq<Node>)
  {
    && r.id in w.files.intents && r.id in done.files.intents && PlanFrame(w.files, done.files, r) && Partly(doc, done.files, r, base) &&
    var before, after := w.files.intents[r.id], done.files.intents[r.id];
    var todo := |before.mutations| - before.applied;
    && after.applying && after.mutations == before.mutations && done.left <= w.left
    && (w.status == Going ==> done.status == Going || done.status == Crashed) && (w.status != Going ==> done == w)
    && (w.status == Going && w.left >= 2 * todo ==> done.status == Going && done.left >= w.left - 2 * todo)
  }

  /** One mutation was applied and counted, or the crash came first. */
  ghost predicate OneFurther(w: Work, next: Work, r: Request)
  {
    && r.id in w.files.intents && r.id in next.files.intents && PlanFrame(w.files, next.files, r) &&
    var before, after := w.files.intents[r.id], next.files.intents[r.id];
    && before.applied < |before.mutations| && after.mutations == before.mutations && next.left <= w.left
    && (next.status == Going || next.status == Crashed) && (next.status == Going ==> after == before.(applied := before.applied + 1))
    && (w.left >= 2 ==> next.status == Going && next.left >= w.left - 2)
  }

  lemma OneFurtherMeans(w: Work, next: Work, r: Request)
    requires OneFurther(w, next, r)
    ensures r.id in w.files.intents && r.id in next.files.intents && (next.status == Going || next.status == Crashed)
    ensures next.files.intents[r.id].mutations == w.files.intents[r.id].mutations
    ensures next.status == Going ==> next.files.intents[r.id] == w.files.intents[r.id].(applied := w.files.intents[r.id].applied + 1)
  {
  }

  lemma AdvancesTwice(doc: Document, w: Work, next: Work, done: Work, r: Request, base: seq<Node>)
    requires w.status == Going && OneFurther(w, next, r) && Advances(doc, next, done, r, base)
    ensures Advances(doc, w, done, r, base)
  {
  }

  /** What is counted as applied is passed over. */
  lemma {:induction false} CountedIsSkipped(w: Work, id: ActionId, intent: Intent, idx: nat)
    requires w.status == Going && idx <= intent.applied <= |intent.mutations|
    ensures ApplyFrom(w, id, intent, idx) == ApplyFrom(w, id, intent, intent.applied)
    decreases intent.applied - idx
  {
    if idx < intent.applied { CountedIsSkipped(w, id, intent, idx + 1); }
  }

  lemma ApplyFromEnd(w: Work, id: ActionId, intent: Intent, idx: nat)
    requires idx <= |intent.mutations| && (w.status != Going || idx == |intent.mutations|)
    ensures ApplyFrom(w, id, intent, idx) == w
  {
  }

  /** From any point of the plan, going on either finishes it or crashes at another point of it. */
  lemma {:induction false} RestApplies(doc: Document, w: Work, r: Request, base: seq<Node>)
    requires Partly(doc, w.files, r, base) && w.files.intents[r.id].applying && w.status == Going
    requires w.files.intents[r.id].applied <= |w.files.intents[r.id].mutations|
    ensures
      var done := ApplyFrom(w, r.id, w.files.intents[r.id], w.files.intents[r.id].applied);
      && Advances(doc, w, done, r, base)
      && (done.status == Going ==> done.files.intents[r.id].applied == |done.files.intents[r.id].mutations|)
    decreases |w.files.intents[r.id].mutations| - w.files.intents[r.id].applied
  {
    assert r.id in w.files.intents;
    hide Partly, ApplyOne, PlanFrame, Advances, OneFurther, ApplyFrom;
    var intent := w.files.intents[r.id];
    if intent.applied == |intent.mutations| {
      ApplyFromEnd(w, r.id, intent, intent.applied);
      AdvancesSelf(doc, w, r, base);
    } else {
      var next := NextApplied(doc, w, r, base);
      if next.status == Going {
        RestApplies(doc, next, r, base);
      } else {
        ApplyFromEnd(next, r.id, intent.(applied := intent.applied + 1), intent.applied + 1);
        AdvancesSelf(doc, next, r, base);
      }
      AdvancesTwice(doc, w, next, ApplyFrom(w, r.id, intent, intent.applied), r, base);
    }
  }

  lemma NextApplied(doc: Document, w: Work, r: Request, base: seq<Node>) returns (next: Work)
    requires Partly(doc, w.files, r, base) && w.status == Going
    requires var intent := w.files.intents[r.id]; intent.applying && intent.applied < |intent.mutations|
    ensures OneFurther(w, next, r) && Partly(doc, next.files, r, base) && next.files.intents[r.id].applying
    ensures next.status == Going || next.status == Crashed
    ensures
      var intent := w.files.intents[r.id];
      && next.files.intents[r.id].mutations == intent.mutations
      && (next.status == Going ==> next.files.intents[r.id] == intent.(applied := intent.applied + 1))
      && ApplyFrom(w, r.id, intent, intent.applied) == ApplyFrom(next, r.id, intent.(applied := intent.applied + 1), intent.applied + 1)
  {
    hide Takes, PlanAction, Fits, AfterFirst, OneFurther, PlanFrame, PlanOk;
    var intent := w.files.intents[r.id];
    ApplyOneKeeps(doc, w, r, base);
    ApplyFromStep(w, r.id, intent);
    next := ApplyOne(w, r.id, intent);
    OneFurtherMeans(w, next, r);
  }

  lemma ApplyFromKeeps(doc: Document, w: Work, r: Request, base: seq<Node>)
    requires Partly(doc, w.files, r, base) && w.files.intents[r.id].applying && (w.status == Going || w.status == Crashed)
    ensures
      var done := ApplyFrom(w, r.id, w.files.intents[r.id], 0);
      && Advances(doc, w, done, r, base)
      && (done.status == Going ==> done.files.intents[r.id].applied == |done.files.intents[r.id].mutations|)
  {
    hide Advances, ApplyFrom, PlanOk, AfterFirst;
    var intent := w.files.intents[r.id];
    if w.status == Going {
      CountedIsSkipped(w, r.id, intent, 0);
      RestApplies(doc, w, r, base);
    } else {
      ApplyFromEnd(w, r.id, intent, 0);
      AdvancesSelf(doc, w, r, base);
    }
  }

  lemma AdvancesSelf(doc: Document, w: Work, r: Request, base: seq<Node>)
    requires Partly(doc, w.files, r, base) && w.files.intents[r.id].applying && (w.status == Going || w.status == Crashed)
    ensures Advances(doc, w, w, r, base)
  {
  }

  // ----- what every submission keeps -----

  /** No receipt is newer than the run. */
  ghost predicate ReceiptsOk(run: RunFile) { forall id :: id in run.receipts ==> run.receipts[id].version <= run.version }

  /** The answer of an accepted request. */
  function Acceptance(r: Request): Reply { Done(r.payload.expected + 1, RunRunning, NoConclusion) }

  function ReceiptFor(r: Request): Receipt { Receipt(r.payload, r.payload.expected + 1, RunRunning, NoConclusion) }

  /** The request has left nothing but, perhaps, its begun journal. */
  ghost predicate Untouched(f: Files, r: Request) { r.id !in f.intents && r.id !in f.run.receipts }

  /** The request is bound to the run for good. */
  ghost predicate Bound(f: Files, r: Request)
  {
    r.id in f.run.receipts && f.run.receipts[r.id] == ReceiptFor(r) && f.run.version > r.payload.expected
  }

  /** Where a request can stand: unknown, begun and untouched, partly applied, accepted but
      not yet answered, or answered for good. */
  ghost predicate Standing(doc: Document, f: Files, r: Request, base: seq<Node>)
  {
    && Fits(doc, f.nodes) && ReceiptsOk(f.run) &&
    if r.id !in f.journals then Untouched(f, r)
    else
      && f.journals[r.id].payload == r.payload
      && match f.journals[r.id].state {
           case Opened => Untouched(f, r) || Partly(doc, f, r, base) || Bound(f, r)
           case Mutated(reply) => Settled(f, r, reply)
           case Committed(reply) => Settled(f, r, reply)
         }
  }

  ghost predicate Settled(f: Files, r: Request, reply: Reply)
  {
    (reply == Acceptance(r) && f.run.version > r.payload.expected) || ((reply.Declined? || Echo(r, reply)) && Untouched(f, r))
  }

  /** The answer to a decision that is repeated on a completed run: the run as it is. */
  predicate Echo(r: Request, reply: Reply)
  {
    r.payload.action.Decide? && reply.Done? && reply.version == r.payload.expected && reply.phase == RunCompleted
  }

  /** The request repeats the decision that is recorded on its node, and has no plan. */
  ghost predicate Redecides(f: Files, r: Request)
  {
    r.id !in f.intents && f.run.version == r.payload.expected && Repeats(f.nodes, r.payload.action)
  }

  /** The nodes that a plan is made from: as they are, until the request is planned. */
  ghost function BaseFor(f: Files, r: Request, base: seq<Node>): seq<Node> { if Untouched(f, r) then f.nodes else base }

  lemma AcceptedKeepsReceipt(run: RunFile, r: Request)
    requires ReceiptsOk(run) && run.version == r.payload.expected
    ensures var after := Accepted(run, r.id, r.payload);
            ReceiptsOk(after) && r.id in after.receipts && after.receipts[r.id] == ReceiptFor(r) && after.version == r.payload.expected + 1
  {
    NewestSurvives(run.receipts[r.id := ReceiptFor(r)], r.id);
  }

  /** What the engine's part does to a request it may act on. */
  ghost predicate Acts(doc: Document, w: Work, done: Work, r: Request, base: seq<Node>)
  {
    && done.files.journals == w.files.journals && |done.files.nodes| == |w.files.nodes| && ReceiptsOk(done.files.run) && done.left <= w.left
    && (Untouched(done.files, r) ==> done.files.nodes == w.files.nodes && done.files.run == w.files.run)
    && match done.status {
         case Going =>
           || (done == w && Untouched(w.files, r) && Redecides(w.files, r) && w.files.run.run.phase == RunCompleted)
           || (Bound(done.files, r) && TookEffect(doc, w.files.run.version, done.files.run.version, done.files.nodes, r, base))
         case Crashed =>
           || Untouched(done.files, r) || Partly(doc, done.files, r, base)
           || (Bound(done.files, r) && TookEffect(doc, w.files.run.version, done.files.run.version, done.files.nodes, r, base))
         case Halted(fault) => done.files == w.files && Untouched(w.files, r)
       }
  }

  /** The action took effect, whole, on the nodes it was planned for, as one version more; a
      repeated decision changes no node. */
  ghost predicate TookEffect(doc: Document, before: nat, after: nat, nodes: seq<Node>, r: Request, base: seq<Node>)
  {
    && Fits(doc, base) && before == r.payload.expected && after == r.payload.expected + 1
    && if Repeats(base, r.payload.action) then nodes == base
       else Takes(base, r.payload.action) && nodes == Acted(doc, base, r.payload.action)
  }

  /** A decision that fits its node repeats none. */
  lemma NotRepeated(nodes: seq<Node>, action: Action)
    requires Takes(nodes, action)
    ensures !Repeats(nodes, action)
  {
  }

  lemma FinalizeKeeps(doc: Document, w: Work, r: Request, base: seq<Node>)
    requires Partly(doc, w.files, r, base) && ReceiptsOk(w.files.run) && w.status != Halted(Unreplayable) && !w.status.Halted?
    requires w.status == Going ==> w.files.intents[r.id].applied == |w.files.intents[r.id].mutations|
    requires Fits(doc, w.files.nodes)
    ensures Acts(doc, w, Finalize(w, r.id, r.payload), r, base) && !Untouched(Finalize(w, r.id, r.payload).files, r)
    ensures w.status == Going && w.left >= 2 ==> Finalize(w, r.id, r.payload).status == Going && Finalize(w, r.id, r.payload).left >= w.left - 2
  {
    AcceptedKeepsReceipt(w.files.run, r);
    PlanIsTheAction(doc, base, r.payload.action);
    NotRepeated(base, r.payload.action);
    hide Accepted, Acted, Takes, Repeats, PlanAction, PlanOk, AfterFirst;
  }

  lemma ApplyIntentKeeps(doc: Document, w: Work, r: Request, base: seq<Node>)
    requires Partly(doc, w.files, r, base) && ReceiptsOk(w.files.run) && !w.status.Halted? && w.files.intents[r.id].applying
    requires Fits(doc, w.files.nodes)
    ensures Acts(doc, w, ApplyIntent(w, r.id, w.files.intents[r.id]), r, base) && !Untouched(ApplyIntent(w, r.id, w.files.intents[r.id]).files, r)
    ensures
      var intent := w.files.intents[r.id];
      w.status == Going && w.left >= 2 * |intent.mutations| + 2 ==>
        ApplyIntent(w, r.id, intent).status == Going && ApplyIntent(w, r.id, intent).left >= w.left - 2 * |intent.mutations| - 2
  {
    hide Finalize, Acted, Takes, PlanAction, PlanOk, AfterFirst;
    var applied := ApplyFrom(w, r.id, w.files.intents[r.id], 0);
    ApplyFromKeeps(doc, w, r, base);
    FinalizeKeeps(doc, applied, r, base);
  }

  /** Planning writes the plan before anything else is touched. */
  lemma PlannedIsPartly(doc: Document, f: Files, r: Request, g: Files, applying: bool)
    requires Fits(doc, f.nodes) && Takes(f.nodes, r.payload.action) && r.id !in f.run.receipts && f.run.version == r.payload.expected
    requires g == f.(intents := f.intents[r.id := Intent(r.payload, applying, 0, PlanAction(doc, f.nodes, r.payload.action))])
    ensures Partly(doc, g, r, f.nodes)
  {
    PlanIsSound(doc, f.nodes, r.payload.action);
  }

  lemma {:induction false} PlanSize(doc: Document, nodes: seq<Node>, i: NodeId, n: nat)
    requires Fits(doc, nodes) && n <= |nodes|
    ensures |Resets(doc, nodes, i, n)| <= n
  {
    if n > 0 { PlanSize(doc, nodes, i, n - 1); }
  }

  /** How many writes any replay can need. */
  function Enough(doc: Document): nat { 2 * |doc.nodes| + 9 }

  lemma PlanFitsBudget(doc: Document, nodes: seq<Node>, action: Action)
    requires Fits(doc, nodes) && Takes(nodes, action)
    ensures 2 * |PlanAction(doc, nodes, action)| + 7 <= Enough(doc)
  {
    PlanSize(doc, nodes, action.i, |nodes|);
  }

  lemma CrashedIntent(w: Work, id: ActionId, intent: Intent)
    requires w.status == Crashed
    ensures ApplyIntent(w, id, intent) == w
  {
    ApplyFromEnd(w, id, intent, 0);
  }

  /** A decision is repeated: nothing is written on a completed run, and otherwise the run. */
  lemma ResumeRepeats(doc: Document, w: Work, r: Request)
    requires Untouched(w.files, r) && ReceiptsOk(w.files.run) && w.status == Going && Fits(doc, w.files.nodes) && Redecides(w.files, r)
    ensures Acts(doc, w, Resume(doc, w, r, true), r, w.files.nodes)
    ensures w.left >= 4 ==> Resume(doc, w, r, true).status == Going && Resume(doc, w, r, true).left >= 2
  {
    hide Repeats, Accepted, Takes, Acted, NeedsAcknowledgement, PlanAction;
    AcceptedKeepsReceipt(w.files.run, r);
  }

  lemma ResumeReplays(doc: Document, w: Work, r: Request, base: seq<Node>)
    requires Partly(doc, w.files, r, base) && ReceiptsOk(w.files.run) && w.status == Going && Fits(doc, w.files.nodes)
    ensures Acts(doc, w, Resume(doc, w, r, true), r, base)
    ensures w.left >= Enough(doc) - 2 ==> Resume(doc, w, r, true).status == Going && Resume(doc, w, r, true).left >= 2
  {
    hide ApplyIntent, Acted, Takes, AfterFirst, PlanAction;
    var intent := w.files.intents[r.id];
    PlanFitsBudget(doc, base, r.payload.action);
    if intent.applying {
      ApplyIntentKeeps(doc, w, r, base);
    } else {
      var applying := intent.(applying := true);
      var w1 := WriteIntent(w, r.id, applying);
      if w1.status == Going { ApplyIntentKeeps(doc, w1, r, base); } else { CrashedIntent(w1, r.id, applying); }
    }
  }

  /** Acting on an untouched request changes nothing, repeats a decision, or plans and
      applies the action. */
  lemma ResumePlans(doc: Document, w: Work, r: Request)
    requires Untouched(w.files, r) && ReceiptsOk(w.files.run) && w.status == Going && Fits(doc, w.files.nodes)
    ensures Acts(doc, w, Resume(doc, w, r, true), r, w.files.nodes)
    ensures w.left >= Enough(doc) - 1 ==>
              Resume(doc, w, r, true).status != Crashed && Resume(doc, w, r, true).left >= 2
  {
    hide ApplyIntent, Finalize, Acted, Takes, Repeats, AfterFirst, PlanAction;
    var f, action := w.files, r.payload.action;
    if Redecides(f, r) {
      ResumeRepeats(doc, w, r);
    } else if f.run.version == r.payload.expected && Takes(f.nodes, action) && !exists other :: other in f.intents && other != r.id {
      var planned := Intent(r.payload, false, 0, PlanAction(doc, f.nodes, action));
      var applying := planned.(applying := true);
      var w1 := WriteIntent(w, r.id, planned);
      var w2 := WriteIntent(w1, r.id, applying);
      PlanFitsBudget(doc, f.nodes, action);
      if w1.status == Going {
        PlannedIsPartly(doc, f, r, w1.files, false);
        if w2.status == Going {
          assert w2.files.intents == f.intents[r.id := applying];
          PlannedIsPartly(doc, f, r, w2.files, true);
          ApplyIntentKeeps(doc, w2, r, f.nodes);
        } else {
          CrashedIntent(w2, r.id, applying);
        }
      } else {
        CrashedIntent(w2, r.id, applying);
      }
    }
  }

  lemma RecordKeeps(w: Work, r: Request, reply: Reply)
    ensures
      var (done, response) := Record(w, r, reply);
      && done.files.intents == w.files.intents && done.files.nodes == w.files.nodes && done.files.run == w.files.run
      && (forall id :: id != r.id ==> (id in done.files.journals <==> id in w.files.journals))
      && (forall id :: id != r.id && id in w.files.journals ==> done.files.journals[id] == w.files.journals[id])
      && (response == Lost || response == Replied(reply))
      && (done.files == w.files || (r.id in done.files.journals && done.files.journals[r.id] in {Journal(r.payload, Mutated(reply)), Journal(r.payload, Committed(reply))}))
      && (response.Replied? ==> r.id in done.files.journals && done.files.journals[r.id] == Journal(r.payload, Committed(reply)))
      && (w.status == Going && w.left >= 2 ==> response == Replied(reply))
  {
  }

  // ----- one submission -----

  ghost predicate AnsweredWith(f: Files, r: Request, reply: Reply)
  {
    r.id in f.journals && !f.journals[r.id].state.Opened? && f.journals[r.id].state.reply == reply
  }

  /** What one submission does: it keeps the standing, answers only what is journalled for
      good, and either leaves the run as it was, or has the action take effect whole. */
  ghost predicate Submits(doc: Document, f: Files, g: Files, r: Request, base: seq<Node>, response: Response)
  {
    && Standing(doc, g, r, base)
    && (response.Replied? ==> r.id in g.journals && g.journals[r.id].state == Committed(response.reply))
    && (r.id in f.journals && !f.journals[r.id].state.Opened? ==>
          && g.run == f.run && g.nodes == f.nodes && g.intents == f.intents && r.id in g.journals && !g.journals[r.id].state.Opened?
          && g.journals[r.id].state.reply == f.journals[r.id].state.reply)
    && (r.id in f.journals ==> r.id in g.journals)
    && (Bound(f, r) ==> g.run == f.run)
    && (Untouched(g, r) ==> g.run == f.run && g.nodes == f.nodes)
    && (r.id !in f.run.receipts && r.id in g.run.receipts ==> Bound(g, r) && TookEffect(doc, f.run.version, g.run.version, g.nodes, r, base))
    && (AnsweredWith(g, r, Acceptance(r)) ==> r.id in g.run.receipts || AnsweredWith(f, r, Acceptance(r)))
  }

  lemma SubmitKeeps(doc: Document, f: Files, r: Request, base: seq<Node>, writes: nat, granted: bool)
    requires Standing(doc, f, r, base)
    ensures var (g, response) := Submit(doc, f, r, writes, granted); Submits(doc, f, g, r, BaseFor(f, r, base), response)
  {
    hide Resume, Partly, TookEffect, Ordered;
    var w := Work(f, writes, Going);
    if r.id in f.journals {
      if f.journals[r.id].state.Opened? { ContinueKeeps(doc, w, r, base, granted); }
    } else if f.run.version == r.payload.expected {
      var begun := WriteJournal(w, r.id, Journal(r.payload, Opened));
      if begun.status == Going { ContinueKeeps(doc, begun, r, base, granted); }
    }
  }

  /** A retry whose acknowledgement is missing waits: its journal stays open. */
  predicate Waits(f: Files, r: Request)
  {
    && r.id !in f.run.receipts && r.id !in f.intents && f.run.version == r.payload.expected
    && NeedsAcknowledgement(f.nodes, r.payload.action)
  }

  /** The request is to be acted on, and either the run's lease is held or it waits. */
  predicate Stuck(f: Files, r: Request, granted: bool)
  {
    r.id !in f.run.receipts && f.run.version == r.payload.expected && (!granted || Waits(f, r))
  }

  /** The section stopped at a fault that leaves the journal open. */
  predicate LeftOpen(status: Status) { status.Halted? && !Terminal(status.fault) }

  lemma {:induction false} ApplyingNeverWaits(w: Work, id: ActionId, intent: Intent, idx: nat)
    requires idx <= |intent.mutations| && !LeftOpen(w.status)
    ensures !LeftOpen(ApplyFrom(w, id, intent, idx).status)
    decreases |intent.mutations| - idx
  {
    if w.status == Going && idx < |intent.mutations| {
      if idx < intent.applied {
        ApplyingNeverWaits(w, id, intent, idx + 1);
      } else {
        var m, next := intent.mutations[idx], intent.(applied := idx + 1);
        if m.i < |w.files.nodes| {
          var w1 := if w.files.nodes[m.i] == m.after then w else ReplaceNode(w, m.i, m.after);
          ApplyingNeverWaits(WriteIntent(w1, id, next), id, next, idx + 1);
        }
      }
    }
  }

  lemma AppliedNeverWaits(w: Work, id: ActionId, intent: Intent)
    requires !LeftOpen(w.status)
    ensures !LeftOpen(ApplyIntent(w, id, intent).status)
  {
    hide Accepted;
    ApplyingNeverWaits(w, id, intent, 0);
  }

  /** Acting leaves the journal open exactly when the request is stuck, and then writes nothing. */
  lemma ResumeWaits(doc: Document, w: Work, r: Request, granted: bool)
    requires w.status == Going && Fits(doc, w.files.nodes) && r.id !in w.files.run.receipts && w.files.run.version == r.payload.expected
    ensures LeftOpen(Resume(doc, w, r, granted).status) <==> Stuck(w.files, r, granted)
    ensures Stuck(w.files, r, granted) ==> Resume(doc, w, r, granted) == w.(status := Halted(StuckFault(granted)))
  {
    var f := w.files;
    hide NeedsAcknowledgement, Takes, Accepted, ApplyIntent, PlanAction;
    assert Repeats(f.nodes, r.payload.action) ==> !NeedsAcknowledgement(f.nodes, r.payload.action) by { OnlyRetriesWait(f.nodes, r.payload.action); }
    if granted && r.id in f.intents {
      var intent := f.intents[r.id];
      var applying := intent.(applying := true);
      AppliedNeverWaits(w, r.id, intent);
      AppliedNeverWaits(WriteIntent(w, r.id, applying), r.id, applying);
    } else if granted && Takes(f.nodes, r.payload.action) {
      var applying := Intent(r.payload, true, 0, PlanAction(doc, f.nodes, r.payload.action));
      AppliedNeverWaits(WriteIntent(WriteIntent(w, r.id, applying.(applying := false)), r.id, applying), r.id, applying);
    }
  }

  lemma OnlyRetriesWait(nodes: seq<Node>, action: Action)
    ensures NeedsAcknowledgement(nodes, action) ==> !Repeats(nodes, action)
  {
  }

  /** The section behind a begun journal. */
  lemma ContinueKeeps(doc: Document, w: Work, r: Request, base: seq<Node>, granted: bool)
    requires Standing(doc, w.files, r, base) && w.status == Going
    requires r.id in w.files.journals && w.files.journals[r.id].state.Opened?
    ensures var (done, response) := Continue(doc, w, r, granted); Submits(doc, w.files, done.files, r, BaseFor(w.files, r, base), response)
    ensures !Stuck(w.files, r, granted) && w.left >= Enough(doc) - 1 ==> Continue(doc, w, r, granted).1.Replied?
    ensures Stuck(w.files, r, granted) ==> Continue(doc, w, r, granted) == (w.(status := Halted(StuckFault(granted))), Refused(StuckFault(granted)))
  {
    hide Resume, Partly, TookEffect, Ordered, Waits;
    var f := w.files;
    if r.id in f.run.receipts {
      NotPartly(doc, f, r, base);
      RecordKeeps(w, r, ReplyOf(f, r.id));
    } else if f.run.version != r.payload.expected {
      NotPartly(doc, f, r, base);
      RecordKeeps(w, r, Declined(VersionConflict));
    } else {
      var done := Resume(doc, w, r, granted);
      ResumeWaits(doc, w, r, granted);
      if !Stuck(f, r, granted) {
        if Untouched(f, r) { ResumePlans(doc, w, r); } else { ResumeReplays(doc, w, r, base); }
        match done.status
        case Crashed => if r.id in done.files.run.receipts { NotPartly(doc, done.files, r, BaseFor(f, r, base)); }
        case Halted(fault) => RecordKeeps(done.(status := Going), r, Declined(fault));
        case Going => RecordKeeps(done, r, ReplyOf(done.files, r.id));
      }
    }
  }

  function StuckFault(granted: bool): Fault { if granted then Unacknowledged else LeaseHeld }

  lemma NotPartly(doc: Document, f: Files, r: Request, base: seq<Node>)
    requires r.id in f.run.receipts || f.run.version != r.payload.expected
    ensures !Partly(doc, f, r, base)
  {
  }

  // ----- whole histories -----

  /** A submission with its tries for the lease, which crashes after some writes, or activity
      of others on the run. */
  datatype Event = Again(writes: nat, tries: seq<Try>) | Elsewhere(files: Files)

  /** Everything that has happened to a request: where it stands, the nodes its plan was or
      would be made from, the replies given, and how often it was accepted. */
  datatype History = History(files: Files, base: seq<Node>, replies: seq<Reply>, acceptances: nat)

  /** What others may do: nothing while a plan is half applied, for a run with a pending
      plan is not touched; otherwise anything but this request's own files. Its receipt may
      age away once it has been answered, and no one else writes one. */
  ghost predicate MayChange(doc: Document, f: Files, g: Files, r: Request)
  {
    && Fits(doc, g.nodes) && ReceiptsOk(g.run) && g.run.version >= f.run.version
    && (r.id in g.journals <==> r.id in f.journals) && (r.id in f.journals ==> g.journals[r.id] == f.journals[r.id])
    && (r.id in g.intents <==> r.id in f.intents) && (r.id in f.intents ==> g.intents[r.id] == f.intents[r.id])
    && (r.id in f.intents && r.id !in f.run.receipts ==> g == f)
    && (r.id in g.run.receipts ==> r.id in f.run.receipts && g.run.receipts[r.id] == f.run.receipts[r.id])
    && (r.id in f.run.receipts && !(r.id in f.journals && !f.journals[r.id].state.Opened?) ==> r.id in g.run.receipts)
  }

  ghost function Next(doc: Document, h: History, r: Request, e: Event): History
  {
    match e
    case Again(writes, tries) =>
      if !Fits(doc, h.files.nodes) then h else
      var (g, response) := Submit(doc, h.files, r, writes, Granted(tries));
      History(g, BaseFor(h.files, r, h.base), if response.Replied? then h.replies + [response.reply] else h.replies,
        h.acceptances + if r.id !in h.files.run.receipts && r.id in g.run.receipts then 1 else 0)
    case Elsewhere(g) =>
      if MayChange(doc, h.files, g, r) then h.(files := g) else h
  }

  /** Accepted once if the run is bound or the answer says so, and never otherwise; every
      reply ever given is the one in the journal. */
  ghost predicate HistoryOk(doc: Document, h: History, r: Request)
  {
    && Standing(doc, h.files, r, h.base)
    && h.acceptances == (if Bound(h.files, r) || AnsweredWith(h.files, r, Acceptance(r)) then 1 else 0)
    && forall i :: 0 <= i < |h.replies| ==> AnsweredWith(h.files, r, h.replies[i])
  }

  lemma AgainKeeps(doc: Document, h: History, r: Request, writes: nat, tries: seq<Try>)
    requires HistoryOk(doc, h, r)
    ensures HistoryOk(doc, Next(doc, h, r, Again(writes, tries)), r)
  {
    SubmitKeeps(doc, h.files, r, h.base, writes, Granted(tries));
    hide Submit, Partly, TookEffect, Fits, Granted;
    var f, base := h.files, BaseFor(h.files, r, h.base);
    var (g, response) := Submit(doc, f, r, writes, Granted(tries));
    var t := Next(doc, h, r, Again(writes, tries));
    PartlyIsOpen(doc, f, r, h.base);
    PartlyIsOpen(doc, g, r, base);
    forall i | 0 <= i < |t.replies| ensures AnsweredWith(g, r, t.replies[i]) {
      if i < |h.replies| { assert AnsweredWith(f, r, h.replies[i]); }
    }
  }

  lemma PartlyIsOpen(doc: Document, f: Files, r: Request, base: seq<Node>)
    ensures Partly(doc, f, r, base) ==> r.id !in f.run.receipts
  {
  }

  lemma ElsewhereKeeps(doc: Document, h: History, r: Request, g: Files)
    requires HistoryOk(doc, h, r)
    ensures HistoryOk(doc, Next(doc, h, r, Elsewhere(g)), r)
  {
    hide Fits;
    if MayChange(doc, h.files, g, r) {
      forall i | 0 <= i < |h.replies| ensures AnsweredWith(g, r, h.replies[i]) { assert AnsweredWith(h.files, r, h.replies[i]); }
      PartlyIsOpen(doc, h.files, r, h.base);
    }
  }

  ghost predicate Begins(doc: Document, f: Files, r: Request)
  {
    Fits(doc, f.nodes) && ReceiptsOk(f.run) && r.id !in f.journals && r.id !in f.intents && r.id !in f.run.receipts
  }

  ghost function Since(doc: Document, f: Files, r: Request, events: seq<Event>): History
  {
    if events == [] then History(f, f.nodes, [], 0)
    else
      var n := |events| - 1;
      Next(doc, Since(doc, f, r, events[..n]), r, events[n])
  }

  /** Every history of a request that begins untouched keeps its standing. */
  lemma {:induction false} SinceOk(doc: Document, f: Files, r: Request, events: seq<Event>)
    requires Begins(doc, f, r)
    ensures HistoryOk(doc, Since(doc, f, r, events), r)
    decreases |events|
  {
    if events != [] {
      var n := |events| - 1;
      SinceOk(doc, f, r, events[..n]);
      hide HistoryOk, Next, Begins;
      match events[n]
      case Again(writes, tries) => AgainKeeps(doc, Since(doc, f, r, events[..n]), r, writes, tries);
      case Elsewhere(g) => ElsewhereKeeps(doc, Since(doc, f, r, events[..n]), r, g);
    }
  }

  /** However often a request is submitted, and wherever each submission crashes, it is
      accepted at most once, every reply it ever gets is the same, and the reply says whether
      it was accepted; but for a decision that is repeated on a completed run, which is
      answered with the run as it is. */
  lemma ExactlyOnce(doc: Document, f: Files, r: Request, events: seq<Event>)
    requires Begins(doc, f, r)
    ensures
      var h := Since(doc, f, r, events);
      && h.acceptances <= 1
      && (forall i, j :: 0 <= i < |h.replies| && 0 <= j < |h.replies| ==> h.replies[i] == h.replies[j])
      && (forall i :: 0 <= i < |h.replies| ==>
            if h.acceptances == 1 then h.replies[i] == Done(r.payload.expected + 1, RunRunning, NoConclusion)
            else h.replies[i].Declined? || Echo(r, h.replies[i]))
  {
    SinceOk(doc, f, r, events);
    hide Partly, Fits, Since;
    var h := Since(doc, f, r, events);
    forall i | 0 <= i < |h.replies| ensures AnsweredWith(h.files, r, h.replies[i]) {}
  }

  /** When a submission gets the request accepted, the action has taken effect whole: the
      nodes are those it was planned for, with the action done to them, or the very same
      nodes if it repeats a decision; the version is one more than the request expected. */
  lemma AcceptedWhole(doc: Document, f: Files, r: Request, events: seq<Event>, writes: nat, tries: seq<Try>)
    requires Begins(doc, f, r)
    ensures
      var h := Since(doc, f, r, events);
      var t := Next(doc, h, r, Again(writes, tries));
      t.acceptances > h.acceptances ==>
        && Fits(doc, t.base)
        && (if Repeats(t.base, r.payload.action) then t.files.nodes == t.base
            else Takes(t.base, r.payload.action) && t.files.nodes == Acted(doc, t.base, r.payload.action))
        && h.files.run.version == r.payload.expected && t.files.run.version == r.payload.expected + 1
        && r.id in t.files.run.receipts && t.files.run.receipts[r.id] == ReceiptFor(r)
  {
    SinceOk(doc, f, r, events);
    var h := Since(doc, f, r, events);
    SubmitKeeps(doc, h.files, r, h.base, writes, Granted(tries));
    hide Submit, Since, Acted, Takes, Repeats, Granted;
    PartlyIsOpen(doc, Next(doc, h, r, Again(writes, tries)).files, r, BaseFor(h.files, r, h.base));
  }

  /** After any crashes, one submission that does not crash gets its reply, unless the request
      is to be acted on and the run's lease is held, or all that is missing is the
      acknowledgement of a retry; then nothing is written. */
  lemma ReplayAnswers(doc: Document, f: Files, r: Request, events: seq<Event>, writes: nat, tries: seq<Try>)
    requires Begins(doc, f, r) && r.id in Since(doc, f, r, events).files.journals && writes >= Enough(doc)
    ensures
      var g := Since(doc, f, r, events).files;
      var stuck := g.journals[r.id].state.Opened? && Stuck(g, r, Granted(tries));
      && Fits(doc, g.nodes) && (Submit(doc, g, r, writes, Granted(tries)).1.Replied? <==> !stuck)
      && (stuck ==> Submit(doc, g, r, writes, Granted(tries)) == (g, Refused(StuckFault(Granted(tries)))))
  {
    SinceOk(doc, f, r, events);
    var h := Since(doc, f, r, events);
    hide Since, Continue, Partly, Granted;
    if h.files.journals[r.id].state.Opened? { ContinueKeeps(doc, Work(h.files, writes, Going), r, h.base, Granted(tries)); }
  }
}
