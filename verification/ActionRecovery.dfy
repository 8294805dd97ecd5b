/** Start-up: the pending journals of all runs are answered in turn, each under its own
    run's lease, and the first one that stays open ends the start-up. */
module ActionRecovery {
  import opened Workflow
  import opened Scheduler
  import opened Topology
  import opened RunMachine
  import opened ActionReplay
  import opened ActionGuarantees
  import opened ActionService
  import Lease

  // ----- the lease of a process that has died -----

  /** While nobody touches the record in place, the lease is granted if and only if a try
      samples the clock at or after its expiry. */
  lemma LeaseInPlace(taken: Lease.Record, tries: seq<Try>)
    requires forall n :: 0 <= n < |tries| ==> tries[n].found == Some(taken)
    ensures Granted(tries) <==> exists n :: 0 <= n < |tries| && taken.expires <= tries[n].sampled
  {
    if Granted(tries) {
      var n :| 0 <= n < |tries| && Lease.GivesWay(tries[n].found, tries[n].sampled, false, Lease.Unknown);
      assert taken.expires <= tries[n].sampled;
    } else {
      forall n | 0 <= n < |tries| ensures tries[n].sampled < taken.expires {
        assert !Lease.GivesWay(tries[n].found, tries[n].sampled, false, Lease.Unknown);
      }
    }
  }

  /** The process dies while it acts, and its lease lives on from its last heartbeat: a
      submission that starts more than the wait before the expiry writes nothing and gets no
      answer, wherever in the plan the first one stopped. */
  lemma CrashKeepsTheLease(doc: Document, f: Files, r: Request, events: seq<Event>, writes: nat, tries: seq<Try>, taken: Lease.Record, beat: int, start: int)
    requires Begins(doc, f, r) && r.id in Since(doc, f, r, events).files.journals && Since(doc, f, r, events).files.journals[r.id].state.Opened?
    requires Stuck(Since(doc, f, r, events).files, r, false)
    requires taken.expires == beat + LEASE_TTL && start + LEASE_WAIT < beat + LEASE_TTL
    requires forall n :: 0 <= n < |tries| ==> tries[n].found == Some(taken) && start <= tries[n].sampled <= start + LEASE_WAIT
    ensures
      var g := Since(doc, f, r, events).files;
      Fits(doc, g.nodes) && Submit(doc, g, r, writes, Granted(tries)) == (g, Refused(LeaseHeld))
  {
    SinceOk(doc, f, r, events);
    LeaseInPlace(taken, tries);
    var h := Since(doc, f, r, events);
    hide Since, Continue, Partly, Granted, Waits;
    ContinueKeeps(doc, Work(h.files, writes, Going), r, h.base, false);
  }

  // ----- one journal -----

  /** Writes that one submission can need at most, on any files. */
  function Plenty(doc: Document, f: Files, r: Request): nat
  {
    2 * |doc.nodes| + 9 + if r.id in f.intents then 2 * |f.intents[r.id].mutations| else 0
  }

  /** With the writes for it, applying a plan goes to its end or stops at a fault. */
  lemma {:induction false} ApplyingGoesOn(w: Work, id: ActionId, intent: Intent, idx: nat)
    requires idx <= |intent.mutations| && w.status == Going && w.left >= 2 * (|intent.mutations| - idx)
    ensures
      var done := ApplyFrom(w, id, intent, idx);
      && done.status != Crashed && done.left >= w.left - 2 * (|intent.mutations| - idx)
      && |done.files.nodes| == |w.files.nodes| && done.files.journals == w.files.journals
    decreases |intent.mutations| - idx
  {
    if idx < |intent.mutations| {
      if idx < intent.applied {
        ApplyingGoesOn(w, id, intent, idx + 1);
      } else {
        var m, next := intent.mutations[idx], intent.(applied := idx + 1);
        if m.i < |w.files.nodes| {
          var w1 := if w.files.nodes[m.i] == m.after then w else ReplaceNode(w, m.i, m.after);
          ApplyingGoesOn(WriteIntent(w1, id, next), id, next, idx + 1);
        }
      }
    }
  }

  lemma AppliedGoesOn(w: Work, id: ActionId, intent: Intent)
    requires w.status == Going && w.left >= 2 * |intent.mutations| + 2
    ensures
      var done := ApplyIntent(w, id, intent);
      && done.status != Crashed && done.left >= w.left - 2 * |intent.mutations| - 2
      && |done.files.nodes| == |w.files.nodes| && done.files.journals == w.files.journals
  {
    hide Accepted;
    ApplyingGoesOn(w, id, intent, 0);
  }

  lemma ResumeGoesOn(doc: Document, w: Work, r: Request, granted: bool)
    requires w.status == Going && Fits(doc, w.files.nodes) && w.left >= Plenty(doc, w.files, r)
    ensures
      var done := Resume(doc, w, r, granted);
      done.status != Crashed && done.left >= 2 && |done.files.nodes| == |w.files.nodes| && done.files.journals == w.files.journals
  {
    hide ApplyIntent, Takes, Repeats, NeedsAcknowledgement, Accepted, PlanAction;
    var f := w.files;
    if r.id in f.intents {
      var intent := f.intents[r.id];
      var applying := intent.(applying := true);
      AppliedGoesOn(w, r.id, intent);
      AppliedGoesOn(WriteIntent(w, r.id, applying), r.id, applying);
    } else if Takes(f.nodes, r.payload.action) {
      PlanFitsBudget(doc, f.nodes, r.payload.action);
      var applying := Intent(r.payload, true, 0, PlanAction(doc, f.nodes, r.payload.action));
      AppliedGoesOn(WriteIntent(WriteIntent(w, r.id, applying.(applying := false)), r.id, applying), r.id, applying);
    }
  }

  /** The request's journal is open, and the request is stuck. */
  predicate Held(f: Files, p: Pending)
    requires p.request.id in f.journals
  {
    f.journals[p.request.id].state.Opened? && Stuck(f, p.request, Granted(p.tries))
  }

  predicate StaysOpen(response: Response) { response.Refused? && !Terminal(response.fault) }

  /** Journals stay with their requests, and an answered one stays answered. */
  ghost predicate JournalsStay(f: Files, g: Files)
  {
    && (forall id :: id in f.journals ==> id in g.journals && g.journals[id].payload == f.journals[id].payload)
    && (forall id :: id in f.journals && f.journals[id].state.Committed? ==> g.journals[id].state.Committed?)
  }

  /** The identity of the request is bound to another request. */
  predicate Foreign(f: Files, r: Request) { r.id in f.run.receipts && f.run.receipts[r.id].payload != r.payload }

  lemma ContinueAnswers(doc: Document, w: Work, r: Request, granted: bool)
    requires w.status == Going && Fits(doc, w.files.nodes) && w.left >= Plenty(doc, w.files, r)
    requires r.id in w.files.journals && w.files.journals[r.id] == Journal(r.payload, Opened)
    ensures
      var (done, response) := Continue(doc, w, r, granted);
      && response != Lost && (StaysOpen(response) <==> Stuck(w.files, r, granted))
      && Fits(doc, done.files.nodes) && JournalsStay(w.files, done.files)
      && (response.Replied? ==> done.files.journals[r.id].state.Committed?)
      && (!response.Replied? && !StaysOpen(response) ==> Foreign(w.files, r))
  {
    hide Resume, Waits, Ordered;
    var f := w.files;
    if r.id in f.run.receipts {
      RecordKeeps(w, r, ReplyOf(f, r.id));
    } else if f.run.version != r.payload.expected {
      RecordKeeps(w, r, Declined(VersionConflict));
    } else {
      var done := Resume(doc, w, r, granted);
      ResumeWaits(doc, w, r, granted);
      ResumeGoesOn(doc, w, r, granted);
      match done.status
      case Crashed =>
      case Halted(fault) => if Terminal(fault) { RecordKeeps(done.(status := Going), r, Declined(fault)); }
      case Going => RecordKeeps(done, r, ReplyOf(done.files, r.id));
    }
  }

  /** What start-up makes of one pending journal, on any files. */
  lemma SubmitAnswers(doc: Document, f: Files, p: Pending)
    requires Fits(doc, f.nodes) && p.request.id in f.journals && f.journals[p.request.id].payload == p.request.payload
    ensures
      var (g, response) := Submit(doc, f, p.request, Plenty(doc, f, p.request), Granted(p.tries));
      && response != Lost && (StaysOpen(response) <==> Held(f, p)) && Fits(doc, g.nodes) && JournalsStay(f, g)
      && (response.Replied? ==> g.journals[p.request.id].state.Committed?)
      && (!response.Replied? && !StaysOpen(response) ==> Foreign(f, p.request))
  {
    hide Continue, Granted, Ordered, Stuck;
    var r := p.request;
    if f.journals[r.id].state.Opened? { ContinueAnswers(doc, Work(f, Plenty(doc, f, r), Going), r, Granted(p.tries)); }
  }

  // ----- all journals -----

  /** A run with its files. */
  datatype Place = Place(doc: Document, files: Files)

  /** A pending journal: its run, its request, and the tries for its run's lease. */
  datatype Pending = Pending(run: nat, request: Request, tries: seq<Try>)

  /** Each pending journal is on its run. */
  ghost predicate AllPending(places: seq<Place>, pending: seq<Pending>)
  {
    && (forall i :: 0 <= i < |places| ==> Fits(places[i].doc, places[i].files.nodes))
    && forall n :: 0 <= n < |pending| ==> PendingAt(places, pending[n])
  }

  predicate PendingAt(places: seq<Place>, p: Pending)
  {
    && p.run < |places| && p.request.id in places[p.run].files.journals
    && places[p.run].files.journals[p.request.id].payload == p.request.payload
  }

  /** The runs once one pending journal has had its turn. */
  ghost function Turn(places: seq<Place>, p: Pending): (r: seq<Place>)
    requires p.run < |places| && Fits(places[p.run].doc, places[p.run].files.nodes)
    ensures |r| == |places|
  {
    var place := places[p.run];
    places[p.run := place.(files := Submit(place.doc, place.files, p.request, Plenty(place.doc, place.files, p.request), Granted(p.tries)).0)]
  }

  lemma TurnKeeps(places: seq<Place>, p: Pending, pending: seq<Pending>)
    requires AllPending(places, pending) && PendingAt(places, p)
    ensures AllPending(Turn(places, p), pending)
    ensures forall i :: 0 <= i < |places| ==> JournalsStay(places[i].files, Turn(places, p)[i].files)
  {
    var place := places[p.run];
    SubmitAnswers(place.doc, place.files, p);
    hide Submit, Fits, Held, Granted;
    forall n | 0 <= n < |pending| ensures PendingAt(Turn(places, p), pending[n]) { assert PendingAt(places, pending[n]); }
  }

  /** Start-up: it goes from journal to journal until one stays open. */
  ghost function Recover(places: seq<Place>, pending: seq<Pending>): (r: (seq<Place>, bool))
    requires AllPending(places, pending)
    decreases |pending|
  {
    if pending == [] then (places, true)
    else
      var p := pending[0];
      assert PendingAt(places, p) && forall n :: 0 <= n < |pending| - 1 ==> pending[1..][n] == pending[n + 1];
      var place, next := places[p.run], Turn(places, p);
      var response := Submit(place.doc, place.files, p.request, Plenty(place.doc, place.files, p.request), Granted(p.tries)).1;
      TurnKeeps(places, p, pending);
      if StaysOpen(response) then (next, false) else Recover(next, pending[1..])
  }

  /** The runs when the n-th journal's turn comes. */
  ghost function Before(places: seq<Place>, pending: seq<Pending>, n: nat): (r: seq<Place>)
    requires AllPending(places, pending) && n <= |pending|
    ensures AllPending(r, pending) && |r| == |places|
  {
    if n == 0 then places
    else
      var earlier := Before(places, pending, n - 1);
      assert PendingAt(earlier, pending[n - 1]);
      TurnKeeps(earlier, pending[n - 1], pending);
      Turn(earlier, pending[n - 1])
  }

  /** At its turn the journal is open, and its request is stuck. */
  ghost predicate HeldAt(places: seq<Place>, p: Pending) { PendingAt(places, p) && Held(places[p.run].files, p) }

  lemma FirstPending(places: seq<Place>, pending: seq<Pending>)
    requires AllPending(places, pending) && pending != []
    ensures AllPending(places, pending[1..]) && PendingAt(places, pending[0]) && AllPending(Turn(places, pending[0]), pending[1..])
  {
    hide Turn, Fits;
    assert forall m :: 0 <= m < |pending| - 1 ==> pending[1..][m] == pending[m + 1];
    assert PendingAt(places, pending[0]);
    TurnKeeps(places, pending[0], pending[1..]);
  }

  lemma {:induction false} BeforeShifts(places: seq<Place>, pending: seq<Pending>, n: nat)
    requires AllPending(places, pending) && 0 < n <= |pending|
    ensures AllPending(places, pending[1..]) && PendingAt(places, pending[0]) && AllPending(Turn(places, pending[0]), pending[1..])
    ensures Before(places, pending, n) == Before(Turn(places, pending[0]), pending[1..], n - 1)
  {
    FirstPending(places, pending);
    hide Turn, Fits, AllPending, PendingAt;
    if n > 1 {
      BeforeShifts(places, pending, n - 1);
      assert pending[1..][n - 2] == pending[n - 1];
    }
  }

  /** Start-up succeeds if and only if no pending journal is held at its turn: each one's
      lease gives way where it is needed, and no retry lacks its acknowledgement. */
  lemma {:induction false} RecoverSucceedsIff(places: seq<Place>, pending: seq<Pending>)
    requires AllPending(places, pending)
    ensures Recover(places, pending).1 <==> forall n :: 0 <= n < |pending| ==> !HeldAt(Before(places, pending, n), pending[n])
    decreases |pending|
  {
    if pending != [] {
      var p := pending[0];
      assert PendingAt(places, p) && Before(places, pending, 0) == places;
      var place, next := places[p.run], Turn(places, p);
      SubmitAnswers(place.doc, place.files, p);
      BeforeShifts(places, pending, 1);
      hide Held, Submit, Turn, Fits, Granted, Plenty;
      if !HeldAt(places, p) {
        RecoverSucceedsIff(next, pending[1..]);
        forall n | 0 < n < |pending|
          ensures HeldAt(Before(places, pending, n), pending[n]) <==> HeldAt(Before(next, pending[1..], n - 1), pending[1..][n - 1])
        {
          BeforeShifts(places, pending, n);
        }
        if forall n :: 0 <= n < |pending| ==> !HeldAt(Before(places, pending, n), pending[n]) {
          forall n | 0 <= n < |pending| - 1 ensures !HeldAt(Before(next, pending[1..], n), pending[1..][n]) {
            assert !HeldAt(Before(places, pending, n + 1), pending[n + 1]);
          }
        }
      }
    }
  }

  /** Journals of different runs do not get in each other's way. */
  lemma {:induction false} OthersUntouched(places: seq<Place>, pending: seq<Pending>, n: nat, i: nat)
    requires AllPending(places, pending) && n <= |pending| && i < |places| && forall m :: 0 <= m < n ==> pending[m].run != i
    ensures Before(places, pending, n)[i] == places[i]
  {
    if n > 0 { OthersUntouched(places, pending, n - 1, i); }
  }

  /** With at most one pending journal for each run, start-up succeeds if and only if none is
      held when it begins. */
  lemma RecoverDistinctRuns(places: seq<Place>, pending: seq<Pending>)
    requires AllPending(places, pending) && forall m, n :: 0 <= m < n < |pending| ==> pending[m].run != pending[n].run
    ensures Recover(places, pending).1 <==> forall n :: 0 <= n < |pending| ==> !HeldAt(places, pending[n])
  {
    RecoverSucceedsIff(places, pending);
    forall n | 0 <= n < |pending| ensures HeldAt(Before(places, pending, n), pending[n]) <==> HeldAt(places, pending[n]) {
      assert PendingAt(places, pending[n]);
      OthersUntouched(places, pending, n, pending[n].run);
    }
  }

  // ----- what a start-up that succeeds has answered -----

  lemma {:induction false} CommittedStays(places: seq<Place>, pending: seq<Pending>, m: nat, n: nat, i: nat, id: ActionId)
    requires AllPending(places, pending) && m <= n <= |pending| && i < |places|
    requires id in Before(places, pending, m)[i].files.journals && Before(places, pending, m)[i].files.journals[id].state.Committed?
    ensures id in Before(places, pending, n)[i].files.journals && Before(places, pending, n)[i].files.journals[id].state.Committed?
    decreases n - m
  {
    hide Turn, Fits, PendingAt;
    if m < n {
      CommittedStays(places, pending, m, n - 1, i, id);
      var earlier := Before(places, pending, n - 1);
      assert PendingAt(earlier, pending[n - 1]);
      TurnKeeps(earlier, pending[n - 1], pending);
    }
  }

  lemma BeforeNone(places: seq<Place>, pending: seq<Pending>)
    requires AllPending(places, pending)
    ensures Before(places, pending, 0) == places
  {
  }

  lemma {:induction false} RecoverGoesThrough(places: seq<Place>, pending: seq<Pending>)
    requires AllPending(places, pending) && Recover(places, pending).1
    ensures Recover(places, pending).0 == Before(places, pending, |pending|)
    decreases |pending|
  {
    hide Turn, Fits, Submit, Granted, Plenty, Before;
    if pending == [] {
      assert Before(places, pending, 0) == places by { BeforeNone(places, pending); }
    } else {
      BeforeShifts(places, pending, |pending|);
      RecoverGoesThrough(Turn(places, pending[0]), pending[1..]);
    }
  }

  /** After a start-up that succeeds every journal that was pending is answered for good, but
      for one whose identity the run had bound to another request. */
  lemma RecoverAnswersAll(places: seq<Place>, pending: seq<Pending>, n: nat)
    requires AllPending(places, pending) && Recover(places, pending).1 && n < |pending|
    ensures PendingAt(Recover(places, pending).0, pending[n]) && PendingAt(Before(places, pending, n), pending[n])
    ensures
      var p := pending[n];
      || Recover(places, pending).0[p.run].files.journals[p.request.id].state.Committed?
      || Foreign(Before(places, pending, n)[p.run].files, p.request)
  {
    RecoverSucceedsIff(places, pending);
    RecoverGoesThrough(places, pending);
    var p, now := pending[n], Before(places, pending, n);
    assert PendingAt(now, p) && !HeldAt(now, p);
    var place := now[p.run];
    SubmitAnswers(place.doc, place.files, p);
    hide Recover, Submit, Granted, Plenty, Held, Fits;
    var after := Before(places, pending, n + 1);
    assert after == Turn(now, p);
    if !Foreign(place.files, p.request) { CommittedStays(places, pending, n + 1, |pending|, p.run, p.request.id); }
  }

  /** Start-up as it runs: each record is submitted again, until one stays open. */
  method RecoverPending(places: seq<Place>, pending: seq<Pending>) returns (after: seq<Place>, ok: bool)
    requires AllPending(places, pending)
    ensures (after, ok) == Recover(places, pending)
  {
    hide Turn, Fits, Submit, Granted, Plenty;
    after := places;
    var n := 0;
    assert pending[0..] == pending;
    while n < |pending|
      invariant 0 <= n <= |pending| && AllPending(after, pending[n..])
      invariant Recover(places, pending) == Recover(after, pending[n..])
    {
      assert pending[n..][0] == pending[n] && pending[n..][1..] == pending[n + 1..];
      BeforeShifts(after, pending[n..], 1);
      var p := pending[n];
      var place := after[p.run];
      var service := new Service(place.doc, place.files);
      var response := service.RunAction(p.request, Plenty(place.doc, place.files, p.request), p.tries);
      TurnIs(after, p, service.Now());
      after := after[p.run := place.(files := service.Now())];
      if StaysOpen(response) { return after, false; }
      n := n + 1;
    }
    return after, true;
  }

  lemma TurnIs(places: seq<Place>, p: Pending, files: Files)
    requires p.run < |places| && Fits(places[p.run].doc, places[p.run].files.nodes)
    requires files == Submit(places[p.run].doc, places[p.run].files, p.request, Plenty(places[p.run].doc, places[p.run].files, p.request), Granted(p.tries)).0
    ensures Turn(places, p) == places[p.run := places[p.run].(files := files)]
  {
  }
}
