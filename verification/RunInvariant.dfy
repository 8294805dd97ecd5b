/** What every step of the run machine keeps. */
module RunInvariant {
  import opened Workflow
  import opened Scheduler
  import opened Topology
  import opened RunMachine

  // ----- the durable part -----

  ghost predicate NodeSound(n: Node)
  {
    && (n.phase == Completed <==> n.conclusion != NoConclusion)
    && (n.kind == Approval ==> n.attempt == 0 && n.phase != Running)
    && (n.kind == Agent && (n.phase == Running || n.phase == Waiting) ==> n.attempt >= 1)
  }

  ghost predicate NodesOk(doc: Document, nodes: seq<Node>)
  {
    Fits(doc, nodes) && forall i :: 0 <= i < |nodes| ==> nodes[i].kind == doc.nodes[i].kind && NodeSound(nodes[i])
  }

  /** The attempt that its node is on. */
  ghost predicate Current(nodes: seq<Node>, k: Key) { k.node < |nodes| && k.number == nodes[k.node].attempt }

  predicate CancelledNode(n: Node) { n.phase == Completed && n.conclusion == Cancelled }

  /** A node that a cancellation has to do with, or has dealt with. */
  predicate InPlay(n: Node) { Active(n) || CancelledNode(n) }

  /** An attempt that was concluded other than by a cancellation. */
  predicate Concluded(a: Attempt) { a.phase == Completed && a.conclusion != Cancelled }

  ghost predicate AttemptOk(nodes: seq<Node>, gone: set<Key>, k: Key, a: Attempt)
  {
    && k.node < |nodes| && 1 <= k.number <= nodes[k.node].attempt + 1
    && (a.handle <==> a.launch == HandlePersisted)
    && (Concluded(a) && a.handle && Current(nodes, k) && InPlay(nodes[k.node]) ==> k in gone)
  }

  /** Every attempt a node has used is on disk, and at most one more. An attempt that is
      concluded while its node is still active, or has been cancelled, has no handle, or its
      execution is gone. */
  ghost predicate AttemptsOk(d: Disk, gone: set<Key>)
  {
    && (forall k :: k in d.attempts ==> AttemptOk(d.nodes, gone, k, d.attempts[k]))
    && (forall i, n :: 0 <= i < |d.nodes| && 1 <= n <= d.nodes[i].attempt ==> Key(i, n) in d.attempts)
  }

  ghost predicate RunOk(d: Disk) { d.run.phase == RunCompleted <==> d.run.conclusion != NoConclusion }

  /** An attempt that the backend was asked to start is on disk as dispatched, and the
      backend was asked once; only started attempts have handles. */
  ghost predicate StartedOk(d: Disk, started: multiset<Key>)
  {
    && (forall k :: k in started ==>
          started[k] == 1 && k in d.attempts && k.node < |d.nodes| && k.number <= d.nodes[k.node].attempt && d.attempts[k].launch != Prepared)
    && (forall k :: k in d.attempts && d.attempts[k].handle ==> k in started)
  }

  function Credit(n: Node): nat { if Unstarted(n) || n.phase == Skipped then 1 else 0 }

  /** A node uses at most one attempt, and one more for each accepted retry or answer. */
  ghost predicate BudgetOk(nodes: seq<Node>, accepted: seq<nat>)
  {
    |accepted| == |nodes| && forall i :: 0 <= i < |nodes| ==> nodes[i].attempt + Credit(nodes[i]) <= 1 + accepted[i]
  }

  ghost predicate DiskOk(doc: Document, d: Disk, past: Past)
  {
    && NodesOk(doc, d.nodes) && AttemptsOk(d, past.gone) && RunOk(d)
    && StartedOk(d, past.started) && BudgetOk(d.nodes, past.accepted)
  }

  // ----- what one edit keeps -----

  /** When the engine makes an edit. */
  ghost predicate Legal(d: Disk, gone: set<Key>, e: Edit)
  {
    NodeOf(e) < |d.nodes| &&
    var n := d.nodes[NodeOf(e)];
    match e
    case Drop(_, reason) => Leftover(n)
    case Ask(_) => Unstarted(n) && n.kind == Approval
    case Assign(_) => Unstarted(n) && n.kind == Agent
    case Finish(k, conclusion, _) => k in d.attempts && Current(d.nodes, k) && Active(n) && conclusion in {Succeeded, Failed}
    case Lose(k) => k in d.attempts && Current(d.nodes, k) && Active(n) && (d.attempts[k].handle ==> k in gone)
    case Hold(k, _, _) => k in d.attempts && Current(d.nodes, k) && Active(n)
    case Confirm(k) => k in d.attempts && Current(d.nodes, k) && InPlay(n)
    case Refuse(k) => k in d.attempts && Current(d.nodes, k) && InPlay(n)
    case Conclude(k) => k in d.attempts && Current(d.nodes, k) && InPlay(n)
  }

  /** One node's files may change; launches never do, and no attempt disappears. */
  ghost predicate Framed(d: Disk, e: Disk, i: NodeId)
  {
    && |e.nodes| == |d.nodes| && (forall j :: 0 <= j < |d.nodes| && j != i ==> e.nodes[j] == d.nodes[j])
    && (forall k :: k in d.attempts ==> k in e.attempts && e.attempts[k].launch == d.attempts[k].launch && e.attempts[k].handle == d.attempts[k].handle)
    && (forall k :: k in e.attempts && k !in d.attempts ==> k.node == i && i < |d.nodes| && k.number == d.nodes[i].attempt + 1)
    && (forall k :: k in d.attempts && k.node != i ==> e.attempts[k] == d.attempts[k])
    && e.run.cancelRequested == d.run.cancelRequested && (d.run.phase != RunCompleted ==> e.run.phase != RunCompleted)
    && (i < |d.nodes| ==> d.nodes[i].attempt <= e.nodes[i].attempt && e.nodes[i].kind == d.nodes[i].kind)
  }

  /** Replacing a node by one on the same attempt keeps the attempts and the history sound. */
  lemma NodeWriteKeeps(doc: Document, d: Disk, past: Past, i: NodeId, n: Node, e: Disk)
    requires DiskOk(doc, d, past) && d.run.phase != RunCompleted
    requires i < |d.nodes| && e == d.(nodes := d.nodes[i := n])
    requires n.kind == d.nodes[i].kind && NodeSound(n) && n.attempt == d.nodes[i].attempt && (n.attempt == 0 || Credit(n) <= Credit(d.nodes[i]))
    requires InPlay(n) ==> InPlay(d.nodes[i])
    ensures DiskOk(doc, e, past) && Framed(d, e, i)
  {
    forall k | k in e.attempts ensures AttemptOk(e.nodes, past.gone, k, e.attempts[k]) {
      assert AttemptOk(d.nodes, past.gone, k, d.attempts[k]);
    }
  }

  /** Updating an attempt without touching its launch. */
  lemma AttemptWriteKeeps(doc: Document, d: Disk, past: Past, k: Key, a: Attempt, e: Disk)
    requires DiskOk(doc, d, past) && k in d.attempts && e == d.(attempts := d.attempts[k := a])
    requires a.launch == d.attempts[k].launch && a.handle == d.attempts[k].handle
    requires AttemptOk(d.nodes, past.gone, k, a)
    ensures DiskOk(doc, e, past) && Framed(d, e, k.node)
  {
  }

  lemma RunWriteKeeps(doc: Document, d: Disk, past: Past, run: Run, e: Disk)
    requires DiskOk(doc, d, past) && e == d.(run := run)
    requires run.phase != RunCompleted && run.conclusion == NoConclusion && run.cancelRequested == d.run.cancelRequested
    ensures DiskOk(doc, e, past)
    ensures forall i :: Framed(d, e, i)
  {
  }

  lemma FramedSelf(d: Disk, i: NodeId)
    ensures Framed(d, d, i)
  {
  }

  lemma FramedTwice(d: Disk, e: Disk, f: Disk, i: NodeId)
    requires Framed(d, e, i) && Framed(e, f, i) && (e.attempts.Keys == d.attempts.Keys || f.attempts.Keys == e.attempts.Keys)
    requires i < |d.nodes| && (e.attempts.Keys == d.attempts.Keys ==> d.nodes[i].attempt == e.nodes[i].attempt)
    ensures Framed(d, f, i)
  {
  }

  ghost function Assigned(n: Node): Node
  {
    n.(phase := Running, reason := NoReason, conclusion := NoConclusion, attempt := n.attempt + 1)
  }

  lemma NewAttemptFits(d: Disk, past: Past, i: NodeId, k: Key, e: Disk)
    requires AttemptsOk(d, past.gone) && StartedOk(d, past.started) && i < |d.nodes| && k == Key(i, d.nodes[i].attempt + 1) && k !in d.attempts
    requires e == d.(attempts := d.attempts[k := FRESH])
    ensures AttemptsOk(e, past.gone) && StartedOk(e, past.started)
  {
    assert AttemptOk(e.nodes, past.gone, k, FRESH);
    hide AttemptOk;
    assert forall i, n :: 0 <= i < |d.nodes| && 1 <= n <= d.nodes[i].attempt ==> Key(i, n) in d.attempts;
  }

  lemma NewAttemptFramed(d: Disk, i: NodeId, k: Key, e: Disk)
    requires i < |d.nodes| && k == Key(i, d.nodes[i].attempt + 1) && k !in d.attempts && e == d.(attempts := d.attempts[k := FRESH])
    ensures Framed(d, e, i)
  {
  }

  /** The new attempt's file alone changes nothing that matters. */
  lemma NewAttemptKeeps(doc: Document, d: Disk, past: Past, i: NodeId, k: Key, e: Disk)
    requires DiskOk(doc, d, past) && i < |d.nodes| && k == Key(i, d.nodes[i].attempt + 1) && k !in d.attempts
    requires e == d.(attempts := d.attempts[k := FRESH])
    ensures DiskOk(doc, e, past) && Framed(d, e, i)
  {
    NewAttemptFits(d, past, i, k, e);
    NewAttemptFramed(d, i, k, e);
    hide NodesOk, BudgetOk, AttemptsOk, StartedOk, Framed;
  }

  lemma AssignedAttempts(d: Disk, gone: set<Key>, i: NodeId, e: Disk)
    requires AttemptsOk(d, gone) && i < |d.nodes|
    requires Key(i, d.nodes[i].attempt + 1) in d.attempts && d.attempts[Key(i, d.nodes[i].attempt + 1)] == FRESH
    requires e == d.(nodes := d.nodes[i := Assigned(d.nodes[i])])
    ensures AttemptsOk(e, gone)
  {
    forall j | j in e.attempts ensures AttemptOk(e.nodes, gone, j, e.attempts[j]) {
      assert AttemptOk(d.nodes, gone, j, d.attempts[j]);
    }
  }

  lemma AssignedNodeKeeps(doc: Document, d: Disk, past: Past, i: NodeId, e: Disk)
    requires DiskOk(doc, d, past) && d.run.phase != RunCompleted && i < |d.nodes| && Unstarted(d.nodes[i]) && d.nodes[i].kind == Agent
    requires Key(i, d.nodes[i].attempt + 1) in d.attempts && d.attempts[Key(i, d.nodes[i].attempt + 1)] == FRESH
    requires e == d.(nodes := d.nodes[i := Assigned(d.nodes[i])])
    ensures DiskOk(doc, e, past) && Framed(d, e, i)
  {
    AssignedAttempts(d, past.gone, i, e);
    AssignedFramed(d, i, e);
    hide AttemptOk, AttemptsOk, Framed;
  }

  lemma AssignedFramed(d: Disk, i: NodeId, e: Disk)
    requires i < |d.nodes| && e == d.(nodes := d.nodes[i := Assigned(d.nodes[i])])
    ensures Framed(d, e, i)
  {
  }

  lemma AssignKeeps(doc: Document, p: Progress, past: Past, i: NodeId)
    requires DiskOk(doc, p.disk, past) && p.disk.run.phase != RunCompleted && Applies(doc, p.disk, Assign(i)) && Legal(p.disk, past.gone, Assign(i))
    ensures var q := Perform(doc, p, Assign(i)); DiskOk(doc, q.disk, past) && Framed(p.disk, q.disk, i)
    ensures var q := Perform(doc, p, Assign(i)); q.ok ==>
              Key(i, p.disk.nodes[i].attempt + 1) !in p.disk.attempts && q.disk.attempts == p.disk.attempts[Key(i, p.disk.nodes[i].attempt + 1) := FRESH]
              && q.disk.nodes == p.disk.nodes[i := Assigned(p.disk.nodes[i])]
  {
    hide DiskOk, Framed;
    var d, n := p.disk, p.disk.nodes[i];
    FramedSelf(d, i);
    var k := Key(i, n.attempt + 1);
    var q := Perform(doc, p, Assign(i));
    if CreateAttempt(p, k, FRESH).ok {
      var d1 := d.(attempts := d.attempts[k := FRESH]);
      var d2 := d1.(nodes := d1.nodes[i := Assigned(n)]);
      var d3 := d2.(run := d.run.(phase := RunRunning, reason := NoReason, conclusion := NoConclusion));
      NewAttemptKeeps(doc, d, past, i, k, d1);
      AssignedNodeKeeps(doc, d1, past, i, d2);
      RunWriteKeeps(doc, d2, past, d3.run, d3);
      FramedTwice(d, d1, d2, i);
      FramedTwice(d, d2, d3, i);
      assert q.disk == d1 || q.disk == d2 || q.disk == d3;
    } else {
      assert q.disk == d;
    }
  }

  /** A node write, an attempt write and a run write, cut short anywhere. */
  lemma WriteBoth(doc: Document, p: Progress, past: Past, k: Key, n: Node, a: Attempt, run: Run)
    requires DiskOk(doc, p.disk, past) && p.disk.run.phase != RunCompleted
    requires k in p.disk.attempts && Current(p.disk.nodes, k) && InPlay(p.disk.nodes[k.node])
    requires n.kind == p.disk.nodes[k.node].kind && NodeSound(n) && n.attempt == p.disk.nodes[k.node].attempt && Credit(n) == 0
    requires a.launch == p.disk.attempts[k].launch && a.handle == p.disk.attempts[k].handle
    requires AttemptOk(p.disk.nodes[k.node := n], past.gone, k, a)
    requires run.phase != RunCompleted && run.conclusion == NoConclusion && run.cancelRequested == p.disk.run.cancelRequested
    ensures
      var q := UpdateAttempt(WriteNode(p, k.node, n), k, a);
      && DiskOk(doc, q.disk, past) && Framed(p.disk, q.disk, k.node)
      && DiskOk(doc, WriteRun(q, run).disk, past) && Framed(p.disk, WriteRun(q, run).disk, k.node)
  {
    hide DiskOk, Framed;
    var d := p.disk;
    var q := UpdateAttempt(WriteNode(p, k.node, n), k, a);
    FramedSelf(d, k.node);
    var d1 := d.(nodes := d.nodes[k.node := n]);
    var d2 := d1.(attempts := d1.attempts[k := a]);
    var d3 := d2.(run := run);
    NodeWriteKeeps(doc, d, past, k.node, n, d1);
    AttemptWriteKeeps(doc, d1, past, k, a, d2);
    RunWriteKeeps(doc, d2, past, run, d3);
    FramedTwice(d, d1, d2, k.node);
    FramedTwice(d, d2, d3, k.node);
    assert q.disk == d || q.disk == d1 || q.disk == d2;
    assert WriteRun(q, run).disk == q.disk || WriteRun(q, run).disk == d3;
  }

  lemma DropOrAskKeeps(doc: Document, p: Progress, past: Past, e: Edit)
    requires DiskOk(doc, p.disk, past) && p.disk.run.phase != RunCompleted && (e.Drop? || e.Ask?)
    requires Applies(doc, p.disk, e) && Legal(p.disk, past.gone, e)
    ensures var q := Perform(doc, p, e); DiskOk(doc, q.disk, past) && Framed(p.disk, q.disk, e.i)
  {
    var q := Perform(doc, p, e);
    if q.ok { NodeWriteKeeps(doc, p.disk, past, e.i, q.disk.nodes[e.i], q.disk); }
  }

  lemma FinishKeeps(doc: Document, p: Progress, past: Past, e: Edit)
    requires DiskOk(doc, p.disk, past) && p.disk.run.phase != RunCompleted && e.Finish?
    requires Applies(doc, p.disk, e) && Legal(p.disk, past.gone, e)
    ensures var q := Perform(doc, p, e); DiskOk(doc, q.disk, past) && Framed(p.disk, q.disk, e.k.node)
  {
    var d, k := p.disk, e.k;
    var n := d.nodes[k.node].(phase := Completed, conclusion := e.conclusion, reason := NoReason, result := Some(e.output));
    var a := d.attempts[k].(phase := Completed, conclusion := e.conclusion, consumed := true);
    assert AttemptOk(d.nodes, past.gone, k, d.attempts[k]);
    WriteBoth(doc, p, past, k, n, a, d.run.(phase := RunRunning, reason := NoReason, conclusion := NoConclusion));
  }

  lemma ConfirmOrRefuseKeeps(doc: Document, p: Progress, past: Past, e: Edit)
    requires DiskOk(doc, p.disk, past) && p.disk.run.phase != RunCompleted && (e.Confirm? || e.Refuse?)
    requires Applies(doc, p.disk, e) && Legal(p.disk, past.gone, e)
    ensures var q := Perform(doc, p, e); DiskOk(doc, q.disk, past) && Framed(p.disk, q.disk, e.k.node)
  {
    var d, k := p.disk, e.k;
    assert AttemptOk(d.nodes, past.gone, k, d.attempts[k]);
    if e.Confirm? {
      var n := d.nodes[k.node].(phase := Completed, conclusion := Cancelled, reason := UserRequested);
      var a := d.attempts[k].(phase := Completed, conclusion := Cancelled, reason := UserRequested);
      WriteBoth(doc, p, past, k, n, a, d.run);
    } else {
      var n := d.nodes[k.node].(phase := Waiting, conclusion := NoConclusion, reason := CancelFailed);
      var a := d.attempts[k].(phase := Waiting, conclusion := NoConclusion, reason := CancelFailed);
      WriteBoth(doc, p, past, k, n, a, d.run);
    }
  }

  lemma HoldKeeps(doc: Document, p: Progress, past: Past, e: Edit)
    requires DiskOk(doc, p.disk, past) && p.disk.run.phase != RunCompleted && e.Hold?
    requires Applies(doc, p.disk, e) && Legal(p.disk, past.gone, e)
    ensures var q := Perform(doc, p, e); DiskOk(doc, q.disk, past) && Framed(p.disk, q.disk, e.k.node)
  {
    var d, k := p.disk, e.k;
    var n := d.nodes[k.node].(phase := Waiting, reason := e.why, result := if e.questions.Some? then e.questions else d.nodes[k.node].result);
    var attempt := d.attempts[k].(phase := Waiting, reason := e.why);
    var a := if e.questions.Some? then attempt.(consumed := true) else attempt;
    assert AttemptOk(d.nodes, past.gone, k, d.attempts[k]);
    var nodes := d.nodes[k.node := n];
    assert nodes[k.node] == n && n.phase == Waiting;
    CompletedWhenDone(d.run, doc, nodes);
    hide Aggregate, AttemptsOk, StartedOk, BudgetOk, Framed;
    WriteBoth(doc, p, past, k, n, a, Aggregate(d.run, doc, nodes).0);
  }

  /** An execution's loss is written to its attempt first, and to its node after that. */
  lemma LoseKeeps(doc: Document, p: Progress, past: Past, e: Edit)
    requires DiskOk(doc, p.disk, past) && p.disk.run.phase != RunCompleted && e.Lose?
    requires Applies(doc, p.disk, e) && Legal(p.disk, past.gone, e)
    ensures var q := Perform(doc, p, e); DiskOk(doc, q.disk, past) && Framed(p.disk, q.disk, e.k.node)
  {
    var d, k := p.disk, e.k;
    var n := d.nodes[k.node].(phase := Completed, conclusion := Indeterminate, reason := NoReason);
    var a := d.attempts[k].(phase := Completed, conclusion := Indeterminate);
    var run := d.run.(phase := RunRunning, reason := NoReason, conclusion := NoConclusion);
    assert AttemptOk(d.nodes, past.gone, k, d.attempts[k]);
    LoseWrites(doc, p, past, k, n, a, run);
  }

  lemma LoseWrites(doc: Document, p: Progress, past: Past, k: Key, n: Node, a: Attempt, run: Run)
    requires DiskOk(doc, p.disk, past) && p.disk.run.phase != RunCompleted
    requires k in p.disk.attempts && Current(p.disk.nodes, k) && InPlay(p.disk.nodes[k.node])
    requires n.kind == p.disk.nodes[k.node].kind && NodeSound(n) && n.attempt == p.disk.nodes[k.node].attempt && n.phase == Completed
    requires a.launch == p.disk.attempts[k].launch && a.handle == p.disk.attempts[k].handle
    requires AttemptOk(p.disk.nodes, past.gone, k, a)
    requires run.phase != RunCompleted && run.conclusion == NoConclusion && run.cancelRequested == p.disk.run.cancelRequested
    ensures
      var q := WriteRun(WriteNode(UpdateAttempt(p, k, a), k.node, n), run);
      && DiskOk(doc, q.disk, past) && Framed(p.disk, q.disk, k.node)
  {
    hide DiskOk, Framed;
    var d := p.disk;
    FramedSelf(d, k.node);
    var q := WriteRun(WriteNode(UpdateAttempt(p, k, a), k.node, n), run);
    var d1 := d.(attempts := d.attempts[k := a]);
    var d2 := d1.(nodes := d1.nodes[k.node := n]);
    var d3 := d2.(run := run);
    AttemptWriteKeeps(doc, d, past, k, a, d1);
    NodeWriteKeeps(doc, d1, past, k.node, n, d2);
    RunWriteKeeps(doc, d2, past, run, d3);
    FramedTwice(d, d1, d2, k.node);
    FramedTwice(d, d2, d3, k.node);
    assert q.disk == d || q.disk == d1 || q.disk == d2 || q.disk == d3;
  }

  /** Recovery concludes the attempt first, unless it was concluded already, and its node after that. */
  lemma ConcludeKeeps(doc: Document, p: Progress, past: Past, e: Edit)
    requires DiskOk(doc, p.disk, past) && p.disk.run.phase != RunCompleted && e.Conclude?
    requires Applies(doc, p.disk, e) && Legal(p.disk, past.gone, e)
    ensures var q := Perform(doc, p, e); DiskOk(doc, q.disk, past) && Framed(p.disk, q.disk, e.k.node)
  {
    var d, k := p.disk, e.k;
    var n := d.nodes[k.node].(phase := Completed, conclusion := Cancelled, reason := UserRequested);
    var a := d.attempts[k].(phase := Completed, conclusion := Cancelled, reason := UserRequested);
    assert AttemptOk(d.nodes, past.gone, k, d.attempts[k]);
    hide DiskOk, Framed;
    FramedSelf(d, k.node);
    var d1 := if AlreadyCancelled(d.attempts[k]) then d else d.(attempts := d.attempts[k := a]);
    var d2 := d1.(nodes := d1.nodes[k.node := n]);
    if d1 != d { AttemptWriteKeeps(doc, d, past, k, a, d1); }
    CancelledNodeKeeps(doc, d1, past, k, n, d2);
    FramedTwice(d, d1, d2, k.node);
    var q := Perform(doc, p, e);
    assert q.disk == d || q.disk == d1 || q.disk == d2;
  }

  lemma CancelledNodeKeeps(doc: Document, d: Disk, past: Past, k: Key, n: Node, e: Disk)
    requires DiskOk(doc, d, past) && d.run.phase != RunCompleted && Current(d.nodes, k) && InPlay(d.nodes[k.node])
    requires n == d.nodes[k.node].(phase := Completed, conclusion := Cancelled, reason := UserRequested)
    requires e == d.(nodes := d.nodes[k.node := n])
    ensures DiskOk(doc, e, past) && Framed(d, e, k.node)
  {
    assert NodeSound(d.nodes[k.node]);
    NodeWriteKeeps(doc, d, past, k.node, n, e);
  }

  /** Every edit the engine makes keeps the files sound, wherever its writes are cut
      short, and touches one node's files only. */
  lemma EditKeeps(doc: Document, p: Progress, past: Past, e: Edit)
    requires DiskOk(doc, p.disk, past) && p.disk.run.phase != RunCompleted
    requires Applies(doc, p.disk, e) && Legal(p.disk, past.gone, e)
    ensures var q := Perform(doc, p, e); DiskOk(doc, q.disk, past) && Framed(p.disk, q.disk, NodeOf(e))
  {
    hide DiskOk, Framed, Legal, Perform;
    match e
    case Drop(_, _) => DropOrAskKeeps(doc, p, past, e);
    case Ask(_) => DropOrAskKeeps(doc, p, past, e);
    case Assign(i) => AssignKeeps(doc, p, past, i);
    case Finish(_, _, _) => FinishKeeps(doc, p, past, e);
    case Lose(_) => LoseKeeps(doc, p, past, e);
    case Hold(_, _, _) => HoldKeeps(doc, p, past, e);
    case Confirm(_) => ConfirmOrRefuseKeeps(doc, p, past, e);
    case Refuse(_) => ConfirmOrRefuseKeeps(doc, p, past, e);
    case Conclude(_) => ConcludeKeeps(doc, p, past, e);
  }

  // ----- what a list of edits keeps -----

  ghost predicate AllLegal(d: Disk, gone: set<Key>, es: seq<Edit>)
  {
    forall i :: 0 <= i < |es| ==> Legal(d, gone, es[i])
  }

  /** No two edits concern the same node. */
  ghost predicate Apart(es: seq<Edit>)
  {
    forall i, j :: 0 <= i < j < |es| ==> NodeOf(es[i]) != NodeOf(es[j])
  }

  ghost predicate Touched(es: seq<Edit>, node: NodeId) { exists i :: 0 <= i < |es| && NodeOf(es[i]) == node }

  /** Framed, for the nodes that a list of edits concerns. */
  ghost predicate FramedAll(d: Disk, e: Disk, es: seq<Edit>)
  {
    && |e.nodes| == |d.nodes|
    && (forall j :: 0 <= j < |d.nodes| && !Touched(es, j) ==> e.nodes[j] == d.nodes[j])
    && (forall j :: 0 <= j < |d.nodes| ==> d.nodes[j].attempt <= e.nodes[j].attempt && e.nodes[j].kind == d.nodes[j].kind)
    && (forall k :: k in d.attempts ==> k in e.attempts && e.attempts[k].launch == d.attempts[k].launch && e.attempts[k].handle == d.attempts[k].handle)
    && (forall k :: k in d.attempts && !Touched(es, k.node) ==> e.attempts[k] == d.attempts[k])
    && e.run.cancelRequested == d.run.cancelRequested && (d.run.phase != RunCompleted ==> e.run.phase != RunCompleted)
  }

  lemma LegalElsewhere(d: Disk, e: Disk, gone: set<Key>, i: NodeId, edit: Edit)
    requires Framed(d, e, i) && NodeOf(edit) != i && Legal(d, gone, edit)
    ensures Legal(e, gone, edit)
  {
  }

  lemma {:induction false} EditsKeep(doc: Document, p: Progress, past: Past, es: seq<Edit>)
    requires DiskOk(doc, p.disk, past) && p.disk.run.phase != RunCompleted
    requires AllApply(doc, p.disk, es) && AllLegal(p.disk, past.gone, es) && Apart(es)
    ensures var q := PerformAll(doc, p, es); DiskOk(doc, q.disk, past) && FramedAll(p.disk, q.disk, es)
    decreases |es|
  {
    if es != [] {
      var p1, rest := Perform(doc, p, es[0]), es[1..];
      EditKeeps(doc, p, past, es[0]);
      RestLegal(doc, p, past, es);
      EditsKeep(doc, p1, past, rest);
      FramedBoth(p.disk, p1.disk, PerformAll(doc, p1, rest).disk, es);
    }
  }

  lemma FramedBoth(d: Disk, e: Disk, f: Disk, es: seq<Edit>)
    requires es != [] && Framed(d, e, NodeOf(es[0])) && FramedAll(e, f, es[1..])
    ensures FramedAll(d, f, es)
  {
    forall j | !Touched(es, j) ensures NodeOf(es[0]) != j && !Touched(es[1..], j) {
      assert forall i :: 0 <= i < |es| - 1 ==> es[1..][i] == es[i + 1];
    }
  }

  lemma RestLegal(doc: Document, p: Progress, past: Past, es: seq<Edit>)
    requires es != [] && AllApply(doc, p.disk, es) && AllLegal(p.disk, past.gone, es) && Apart(es)
    requires Framed(p.disk, Perform(doc, p, es[0]).disk, NodeOf(es[0]))
    ensures
      var p1 := Perform(doc, p, es[0]);
      AllApply(doc, p1.disk, es[1..]) && AllLegal(p1.disk, past.gone, es[1..]) && Apart(es[1..])
  {
    hide Perform;
    var p1, rest := Perform(doc, p, es[0]), es[1..];
    forall i | 0 <= i < |rest| ensures Applies(doc, p1.disk, rest[i]) && Legal(p1.disk, past.gone, rest[i]) {
      assert rest[i] == es[i + 1];
      LegalElsewhere(p.disk, p1.disk, past.gone, NodeOf(es[0]), rest[i]);
    }
    assert forall i :: 0 <= i < |rest| ==> rest[i] == es[i + 1];
  }
}
